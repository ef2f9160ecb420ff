/**
 * The MessageBird Verify provider: it sends a one-time token to the user's
 * mobile number, checks a token the user typed, and ends the session. The
 * service reports every token problem as one generic RequestException; the
 * provider tells the problems apart by the exception's exact message.
 */
module Providers {
  import opened Wrappers
  import opened MessageBirdClient
  import opened TwoFactorAuth

  /** What the provider reads of a user: the key and the (nullable) mobile number. */
  datatype User = User(id: UserId, mobile: Option<string>)

  /** The status of a session whose token was accepted (Verify::STATUS_VERIFIED). */
  const StatusVerified := "verified"

  const TokenLengthMessage := "Token should between 6 and 10 characters"
  const TokenInvalidMessage := "The token is invalid."
  const TokenExpiredMessage := "The token has expired."
  const TokenProcessedMessage := "The token has already been processed."

  /** What a provider operation raises. */
  datatype ProviderError =
    | TokenInvalid(message: string)           // TokenInvalidException
    | TokenExpired(message: string)           // TokenExpiredException
    | TokenAlreadyProcessed(message: string)  // TokenAlreadyProcessedException
    | Remote(remote: RemoteError)             // a client exception, passed on unchanged
    | NoMobileNumber(user: UserId)            // the plain Exception of sendSMSToken
    | Store(store: StoreError)                // reading or writing the user's record failed

  /**
   * The catch block of verify: a RequestException carrying one of the four known
   * messages becomes the matching token error with the same message; every other
   * failure is thrown again as it was.
   */
  function Classify(e: RemoteError): (r: ProviderError)
    ensures r.TokenInvalid? <==>
      e.RequestException? && (e.message == TokenLengthMessage || e.message == TokenInvalidMessage)
    ensures r.TokenExpired? <==> e.RequestException? && e.message == TokenExpiredMessage
    ensures r.TokenAlreadyProcessed? <==> e.RequestException? && e.message == TokenProcessedMessage
    ensures r.TokenInvalid? || r.TokenExpired? || r.TokenAlreadyProcessed? ==> r.message == e.message
    ensures !(r.TokenInvalid? || r.TokenExpired? || r.TokenAlreadyProcessed?) ==> r == Remote(e)
  {
    match e
    case RequestException(message) =>
      if message == TokenLengthMessage || message == TokenInvalidMessage then TokenInvalid(message)
      else if message == TokenExpiredMessage then TokenExpired(message)
      else if message == TokenProcessedMessage then TokenAlreadyProcessed(message)
      else Remote(e)
    case OtherException(_, _) => Remote(e)
  }

  /** What verify makes of the remote answer: a status is a boolean, a failure is classified and raised. */
  function VerifyOutcome(reply: VerifyReply): (r: Result<bool, ProviderError>)
    ensures r == Ok(true) <==> reply == Status(StatusVerified)
    ensures r == Ok(false) <==> reply.Status? && reply.status != StatusVerified
    ensures reply.VerifyFailed? ==> r == Err(Classify(reply.error))
  {
    match reply
    case Status(status) => Ok(status == StatusVerified)
    case VerifyFailed(e) => Err(Classify(e))
  }

  /** The three kinds of token failure a known message stands for. */
  datatype TokenFailure = Invalid | Expired | AlreadyProcessed

  /** The known messages and their kinds, as a table. */
  const KnownMessages: seq<(string, TokenFailure)> := [
    (TokenLengthMessage, Invalid),
    (TokenInvalidMessage, Invalid),
    (TokenExpiredMessage, Expired),
    (TokenProcessedMessage, AlreadyProcessed)
  ]

  /** The kind of the first table entry for `message`. */
  function Lookup(table: seq<(string, TokenFailure)>, message: string): Option<TokenFailure>
  {
    if table == [] then None
    else if table[0].0 == message then Some(table[0].1)
    else Lookup(table[1..], message)
  }

  function Raise(kind: TokenFailure, message: string): ProviderError
  {
    match kind
    case Invalid => TokenInvalid(message)
    case Expired => TokenExpired(message)
    case AlreadyProcessed => TokenAlreadyProcessed(message)
  }

  /** The chain of comparisons in verify classifies exactly as the table does. */
  lemma ClassifyAgreesWithTable(e: RemoteError)
    ensures Classify(e) ==
      if e.RequestException? && Lookup(KnownMessages, e.message).Some? then
        Raise(Lookup(KnownMessages, e.message).value, e.message)
      else Remote(e)
  {
    if e.RequestException? {
      var m := e.message;
      var t1, t2, t3 := KnownMessages[1..], KnownMessages[2..], KnownMessages[3..];
      assert t1[1..] == t2 && t2[1..] == t3 && t3[1..] == [];
      assert Lookup(t3, m) == if m == TokenProcessedMessage then Some(AlreadyProcessed) else None;
      assert Lookup(t2, m) == if m == TokenExpiredMessage then Some(Expired) else Lookup(t3, m);
      assert Lookup(t1, m) == if m == TokenInvalidMessage then Some(Invalid) else Lookup(t2, m);
    }
  }

  /** PHP's `!$user->mobile`: null, the empty string and "0" are all no number. */
  function HasMobile(mobile: Option<string>): (b: bool)
    ensures b ==> mobile.Some? && |mobile.value| > 0
    ensures mobile.Some? && |mobile.value| >= 2 ==> b
    ensures mobile.Some? && |mobile.value| == 1 ==> (b <==> mobile.value[0] != '0')
  {
    mobile.Some? && mobile.value != "" && mobile.value != "0"
  }

  class MessageBirdVerify {
    const client: Client

    constructor (client: Client)
      ensures this.client == client
    {
      this.client := client;
    }

    /** enabled: whether the user has a two-factor record; reads only. */
    method Enabled(db: AssociationStore, user: User) returns (b: bool)
      ensures b <==> user.id in db.records
    {
      b := db.Exists(user.id);
    }

    /** register: this provider needs no registration. */
    method Register(db: AssociationStore, user: User)
      ensures unchanged(db, client)
    {
    }

    /** unregister: delete the session at the remote side, then clear the stored id. */
    method Unregister(db: AssociationStore, user: User, config: Option<string>) returns (r: Result<bool, ProviderError>)
      modifies client`calls, db`records
      ensures user.id !in old(db.records) ==>
        r == Err(Store(MissingRecord(user.id))) && client.calls == old(client.calls) && db.records == old(db.records)
      ensures user.id in old(db.records) ==>
        client.calls == old(client.calls) + [DeleteCall(old(db.records)[user.id])]
      ensures user.id in old(db.records) ==>
        match client.onDelete(old(client.calls), old(db.records)[user.id])
        case DeleteFailed(e) => r == Err(Remote(e)) && db.records == old(db.records)
        case Deleted(result) =>
          r == Ok(result) && db.records == AssignHandle(config, old(db.records), user.id, None).value
      ensures r.Ok? && (Mode(config) == PerUser || Mode(config) == Always) ==>
        db.records == old(db.records)[user.id := None]
    {
      var id := db.GetTwoFactorAuthId(user.id);
      if id.Err? {
        return Err(Store(id.error));
      }
      var reply := client.Delete(id.value);
      if reply.DeleteFailed? {
        return Err(Remote(reply.error));
      }
      var cleared := db.SetTwoFactorAuthId(config, user.id, None);
      assert cleared.Ok?;  // the record was there when it was read, so clearing cannot fail
      r := Ok(reply.result);
    }

    /** verify: submit the token for the stored session; never writes the store. */
    method Verify(db: AssociationStore, user: User, token: string) returns (r: Result<bool, ProviderError>)
      modifies client`calls
      ensures user.id !in db.records ==>
        r == Err(Store(MissingRecord(user.id))) && client.calls == old(client.calls)
      ensures user.id in db.records ==>
        client.calls == old(client.calls) + [VerifyCall(db.records[user.id], token)] &&
        r == VerifyOutcome(client.onVerify(old(client.calls), db.records[user.id], token))
    {
      var id := db.GetTwoFactorAuthId(user.id);
      if id.Err? {
        return Err(Store(id.error));
      }
      var reply := client.Verify(id.value, token);
      r := VerifyOutcome(reply);
    }

    /** sendSMSToken: start a session for the user's mobile number and store its id. */
    method SendSMSToken(db: AssociationStore, user: User, config: Option<string>, options: Options)
      returns (r: Result<(), ProviderError>)
      modifies client`calls, db`records
      ensures !HasMobile(user.mobile) ==>
        r == Err(NoMobileNumber(user.id)) && client.calls == old(client.calls) && db.records == old(db.records)
      ensures HasMobile(user.mobile) ==>
        client.calls == old(client.calls) + [CreateCall(user.mobile.value, options)]
      ensures HasMobile(user.mobile) ==>
        match client.onCreate(old(client.calls), user.mobile.value, options)
        case CreateFailed(e) => r == Err(Remote(e)) && db.records == old(db.records)
        case Created(id) =>
          match AssignHandle(config, old(db.records), user.id, Some(id))
          case Ok(m) => r == Ok(()) && db.records == m
          case Err(e) => r == Err(Store(e)) && db.records == old(db.records)
    {
      if !HasMobile(user.mobile) {
        return Err(NoMobileNumber(user.id));
      }
      var reply := client.Create(user.mobile.value, options);
      if reply.CreateFailed? {
        return Err(Remote(reply.error));
      }
      var stored := db.SetTwoFactorAuthId(config, user.id, Some(reply.id));
      r := if stored.Ok? then Ok(()) else Err(Store(stored.error));
    }
  }
}
