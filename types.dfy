/** The records the handlers read and write (types.go), with the fields the
    handlers actually use: a session token with its expiry, an order with its
    platform id and payment state, and the AuthMe user row with its post-load
    conversion. */
module Types {
  import opened Common

  /** A session token row: `token` is the opaque string the client presents. */
  datatype Token = Token(tokenID: nat, parentUsername: String, token: String, expireAt: Time)

  /** An order row. `paidAt` is `None` while the order is unpaid. */
  datatype Order = Order(
    orderID: String,
    platformOrderID: String,
    parentUsername: String,
    payType: String,
    createdAt: Time,
    paidPrice: nat,
    paidAt: Option<Time>,
    transactionID: String,
    transactionType: String)

  /** `sql.NullInt64`. */
  datatype NullInt64 = NullInt64(int64: int, valid: bool)

  /** `time.Unix(sec, 0)` on the nanosecond time line. */
  function UnixSeconds(sec: int): (t: Time)
    ensures t / Second == sec && t % Second == 0
  {
    sec * Second
  }

  /** A row of the AuthMe plugin's user table. `LastLogin` and `LoggedIn` are
      not columns: `AfterFind` derives them from the raw columns. */
  class AuthMeUser {
    var username: String
    var password: String
    var lastLoginRaw: NullInt64
    var lastLogin: Time
    var loggedInRaw: nat
    var loggedIn: bool
    var tokens: seq<Token>

    constructor (username: String, password: String, lastLoginRaw: NullInt64, loggedInRaw: nat, tokens: seq<Token>)
      ensures this.username == username && this.password == password
      ensures this.lastLoginRaw == lastLoginRaw && this.loggedInRaw == loggedInRaw
      ensures this.tokens == tokens
      ensures lastLogin == 0 && !loggedIn
    {
      this.username := username;
      this.password := password;
      this.lastLoginRaw := lastLoginRaw;
      this.lastLogin := 0;
      this.loggedInRaw := loggedInRaw;
      this.loggedIn := false;
      this.tokens := tokens;
    }

    /** `TableName`: the user rows live in the table "authme". */
    function TableName(): (name: String)
      ensures name == "authme"
    {
      "authme"
    }

    /** `AfterFind`: `loggedIn` becomes "the raw flag is non-zero";
        `lastLogin` is taken from the raw seconds only when they are present;
        nothing else changes and the error is always nil. */
    method AfterFind() returns (err: Option<String>)
      modifies this`loggedIn, this`lastLogin
      ensures err == None
      ensures loggedIn <==> loggedInRaw != 0
      ensures lastLoginRaw.valid ==> lastLogin == UnixSeconds(lastLoginRaw.int64)
      ensures !lastLoginRaw.valid ==> lastLogin == old(lastLogin)
      ensures username == old(username) && password == old(password) && tokens == old(tokens)
      ensures loggedInRaw == old(loggedInRaw) && lastLoginRaw == old(lastLoginRaw)
    {
      if loggedInRaw == 0 {
        loggedIn := false;
      } else {
        loggedIn := true;
      }
      if lastLoginRaw.valid {
        lastLogin := UnixSeconds(lastLoginRaw.int64);
      }
      err := None;
    }
  }
}
