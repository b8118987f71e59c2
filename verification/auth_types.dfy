/**
 * The records of the authentication layer: the cached user profile, the
 * token pair, the two request bodies and the five-field session state.
 */
module AuthTypes {
  import opened Wrappers

  datatype Plan = Free | Pro | Enterprise
  datatype Role = UserRole | Admin | Moderator
  datatype Provider = Local | Google

  /** The profile the backend returns; every optional property is an `Option`. */
  datatype User = User(
    id: string,
    email: string,
    name: Option<string>,
    firstName: Option<string>,
    lastName: Option<string>,
    plan: Option<Plan>,
    role: Option<Role>,
    avatar: Option<string>,
    provider: Option<Provider>,
    emailVerified: Option<bool>,
    isVerified: Option<bool>,
    createdAt: string,
    updatedAt: Option<string>)

  datatype AuthTokens = AuthTokens(accessToken: string, refreshToken: string, expiresIn: Option<string>)

  datatype LoginRequest = LoginRequest(email: string, password: string)

  datatype RegisterRequest = RegisterRequest(email: string, password: string, firstName: string, lastName: string)

  /** The session record the reducer maintains; `None` stands for `null`. */
  datatype AuthState = AuthState(
    user: Option<User>,
    tokens: Option<AuthTokens>,
    isAuthenticated: bool,
    isLoading: bool,
    error: Option<string>)
}
