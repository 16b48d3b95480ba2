/** The error bag of a form request: the messages its validator adds, one
    per failed check, each under the input field it concerns. */
module Validation {
  datatype FieldError = FieldError(field: string, message: string)

  /** Shared by the store and update requests. */
  const AdminWithManager: FieldError := FieldError("manager_id", "Admin users cannot have a manager.")
}
