/** The shapes declared in types/auth.ts. They carry no behaviour. */
module AuthTypes {
  import opened Common

  /** An app user. The session store's own `User` (stores/authStore.ts) has
      the first five fields; its optional ones are left `None` there. */
  datatype User = User(
    id: string,
    email: string,
    name: string,
    profilePicture: Option<string>,
    employeeId: string,
    department: Option<string>,
    position: Option<string>,
    phone: Option<string>)

  datatype LoginCredentials = LoginCredentials(email: string, password: string)

  datatype LoginResponse = LoginResponse(user: User, token: string, refreshToken: string)
}
