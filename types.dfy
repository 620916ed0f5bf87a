/**
 * Shapes of the values that cross the client's boundaries: the backend's
 * response envelope, the authentication result, the user profile and the
 * coin records, plus how a Redux Toolkit thunk settles.
 */
module Types {
  import opened Wrappers

  /** The user profile (types/user.types.ts); timestamps are left out. */
  datatype User = User(
    id: string, name: string, gender: string, email: string, avatar: Option<string>,
    username: string, isVerified: bool, xp: int, level: int,
    ownedCoinsCount: int, caughtCoinsCount: int)

  /** The `result` of a login, register or refresh reply (types/auth-response.types.ts). */
  datatype AuthResponse = AuthResponse(user: User, accessToken: string, refreshToken: string)

  /** The backend's envelope `{ success, result?, message? }` (types/response.types.ts). */
  datatype AppResponse<T> = AppResponse(success: bool, result: Option<T>, message: Option<string>)

  /** A collectible (types/coin.types.ts); timestamps are left out. */
  datatype Coin = Coin(id: string, name: string, icon: string, coinType: string)

  /** A coin placed on the map (types/coin.types.ts); coordinates are plain reals. */
  datatype CoinLocation = CoinLocation(id: string, latitude: real, longitude: real, isActive: bool, coin: Coin)

  /** How a `createAsyncThunk` settles: its fulfilled payload or its `rejectWithValue` payload. */
  datatype ThunkResult<T> = Fulfilled(payload: T) | RejectedWith(reason: string)
}
