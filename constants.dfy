/** The constants of src/constants/index.ts that the core uses. */
module Constants {

  // Storage keys.
  const TOKEN_KEY: string := "token"
  const USER_INFO_KEY: string := "userInfo"
  const IS_LOGGED_IN_KEY: string := "isLoggedIn"

  /** The three keys the session owns in each storage tier. */
  const AUTH_KEYS: set<string> := {TOKEN_KEY, USER_INFO_KEY, IS_LOGGED_IN_KEY}

  /** The value written under IS_LOGGED_IN_KEY. */
  const TRUE_TEXT: string := "true"

  // Response codes (used both as envelope codes and as HTTP statuses).
  const CODE_SUCCESS: int := 200
  const CODE_UNAUTHORIZED: int := 401
  const CODE_FORBIDDEN: int := 403
  const CODE_NOT_FOUND: int := 404
  const CODE_SERVER_ERROR: int := 500

  // Route paths.
  const AUTH_PATH: string := "/auth"
  const DASHBOARD_PATH: string := "/dashboard"

  // Parking spot statuses.
  const STATUS_AVAILABLE: string := "available"
  const STATUS_OCCUPIED: string := "occupied"
  const STATUS_RESERVED: string := "reserved"
  const STATUS_MAINTENANCE: string := "maintenance"

  // Parking spot types.
  const TYPE_STANDARD: string := "standard"
  const TYPE_HANDICAPPED: string := "handicapped"
  const TYPE_ELECTRIC: string := "electric"
  const TYPE_COMPACT: string := "compact"
}
