/** The actors of the src/ engines: a closed set of roles and a named
    employee holding one of them. */
module Models {

  /** `Role`, with the display value of each member. */
  datatype Role =
    | AdmManager
    | FinManager
    | HrManager
    | HrWorker
    | CsManager
    | CsWorker
    | Manager
    | Worker
  {
    function Value(): string {
      match this
      case AdmManager => "Administration Department Manager"
      case FinManager => "Financial Manager"
      case HrManager => "Human Resources Manager"
      case HrWorker => "Human Resources Agent"
      case CsManager => "Senior Customer Service Officer"
      case CsWorker => "Customer Service Officer"
      case Manager => "Manager"
      case Worker => "Staff Member"
    }
  }

  /** A named actor; its role never changes. */
  datatype Employee = Employee(name: string, role: Role)
}
