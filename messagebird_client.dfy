/**
 * The MessageBird Verify service as the provider sees it: three remote
 * operations (create, verify, delete a verification session). What the
 * service answers is an oracle supplied from outside; the client keeps a log
 * of every call made, so that contracts can say which calls happened, with
 * which arguments and in which order.
 */
module MessageBirdClient {
  import opened Wrappers

  /** The provider options handed to create unmodified. */
  type Options = map<string, string>

  /** What the client library throws. Only RequestException is ever inspected. */
  datatype RemoteError =
    | RequestException(message: string)
    | OtherException(kind: string, message: string)

  /** One call made to the remote service. */
  datatype Call =
    | CreateCall(recipient: string, options: Options)
    | VerifyCall(id: Option<string>, token: string)
    | DeleteCall(id: Option<string>)

  /** The answer to create: the new session's id, or a thrown failure. */
  datatype CreateReply = Created(id: string) | CreateFailed(error: RemoteError)

  /** The answer to verify: the session's status, or a thrown failure. */
  datatype VerifyReply = Status(status: string) | VerifyFailed(error: RemoteError)

  /** The answer to delete: its boolean result, or a thrown failure. */
  datatype DeleteReply = Deleted(result: bool) | DeleteFailed(error: RemoteError)

  /**
   * The remote service. Each answer may depend on every call made before it,
   * which is all the session state the remote side can have.
   */
  class Client {
    var calls: seq<Call>
    const onCreate: (seq<Call>, string, Options) -> CreateReply
    const onVerify: (seq<Call>, Option<string>, string) -> VerifyReply
    const onDelete: (seq<Call>, Option<string>) -> DeleteReply

    constructor (onCreate: (seq<Call>, string, Options) -> CreateReply,
                 onVerify: (seq<Call>, Option<string>, string) -> VerifyReply,
                 onDelete: (seq<Call>, Option<string>) -> DeleteReply)
      ensures calls == []
      ensures this.onCreate == onCreate && this.onVerify == onVerify && this.onDelete == onDelete
    {
      calls := [];
      this.onCreate := onCreate;
      this.onVerify := onVerify;
      this.onDelete := onDelete;
    }

    /** verify->create: start a session sending a token to `recipient`. */
    method Create(recipient: string, options: Options) returns (r: CreateReply)
      modifies this`calls
      ensures calls == old(calls) + [CreateCall(recipient, options)]
      ensures r == onCreate(old(calls), recipient, options)
    {
      r := onCreate(calls, recipient, options);
      calls := calls + [CreateCall(recipient, options)];
    }

    /** verify->verify: submit `token` for the session `id`. */
    method Verify(id: Option<string>, token: string) returns (r: VerifyReply)
      modifies this`calls
      ensures calls == old(calls) + [VerifyCall(id, token)]
      ensures r == onVerify(old(calls), id, token)
    {
      r := onVerify(calls, id, token);
      calls := calls + [VerifyCall(id, token)];
    }

    /** verify->delete: end the session `id`. */
    method Delete(id: Option<string>) returns (r: DeleteReply)
      modifies this`calls
      ensures calls == old(calls) + [DeleteCall(id)]
      ensures r == onDelete(old(calls), id)
    {
      r := onDelete(calls, id);
      calls := calls + [DeleteCall(id)];
    }
  }
}
