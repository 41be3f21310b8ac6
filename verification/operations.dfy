/**
 * The five public operations of `GithubPlatform` (`assignUser`,
 * `commentIssue`, `getIssue`, `openIssue`, `setLabel`). Each builds its action,
 * hands it to the inherited `executeRuntimeAction`, and casts the result to
 * its declared return type. What an action does remotely is not visible here,
 * so the runtime's execution is a parameter.
 */
module Operations {
  import opened Wrappers
  import opened Validation
  import opened Platform

  /** A jcabi issue, known only by identity. */
  datatype Issue = Issue(id: nat)

  /** A jcabi comment, known only by identity. */
  datatype Comment = Comment(id: nat)

  /** The caller's execution context, forwarded to the action and never inspected. */
  datatype StateContext = StateContext(id: nat)

  /** The action each public method builds, with the arguments it is given. */
  datatype Operation =
    | AssignUser(issue: Issue, username: string)
    | CommentIssue(issue: Issue, commentContent: string)
    | GetIssue(user: string, repository: string, issueNumber: string)
    | OpenIssue(user: string, repository: string, issueTitle: string, issueContent: string)
    | SetLabel(issue: Issue, labelName: string)

  /** The Java types the public methods cast their result to. */
  datatype JavaType = StringType | CommentType | SmartIssueType

  /** What `RuntimeActionResult.getResult()` may hold at run time. */
  datatype RuntimeValue =
    | NullValue
    | StringValue(s: string)
    | CommentValue(comment: Comment)
    | SmartIssueValue(smartIssue: Issue)
    | OtherObject

  /** What a public operation throws. */
  datatype OperationError =
    | Raised(exception: XatkitException)   // thrown while the action executes
    | ClassCastException(target: JavaType) // the result has another run-time type

  /** The declared return type of the public method that builds `op`. */
  function ReturnType(op: Operation): JavaType
  {
    match op
    case AssignUser(_, _) => StringType
    case CommentIssue(_, _) => CommentType
    case GetIssue(_, _, _) => SmartIssueType
    case OpenIssue(_, _, _, _) => SmartIssueType
    case SetLabel(_, _) => StringType
  }

  /** Java's `v instanceof t`; `null` is an instance of nothing. */
  predicate InstanceOf(v: RuntimeValue, t: JavaType)
  {
    match t
    case StringType => v.StringValue?
    case CommentType => v.CommentValue?
    case SmartIssueType => v.SmartIssueValue?
  }

  /** Java's reference cast `(t) v`: `null` passes, so does an instance of `t`; anything else throws. */
  function Cast(v: RuntimeValue, t: JavaType): (r: Result<RuntimeValue, OperationError>)
    ensures r.Success? <==> v.NullValue? || InstanceOf(v, t)
    ensures r.Success? ==> r.value == v
    ensures r.Failure? ==> r.error == ClassCastException(t)
  {
    if v.NullValue? || InstanceOf(v, t) then Success(v) else Failure(ClassCastException(t))
  }

  /**
   * A public operation: run the action through the runtime (`execute`, which
   * may consult the platform's client), then cast. Its result type holds no
   * platform: an operation cannot write the client field.
   */
  function Invoke(p: GithubPlatform, context: StateContext, op: Operation,
                  execute: (GithubPlatform, StateContext, Operation) -> Result<RuntimeValue, XatkitException>)
    : (r: Result<RuntimeValue, OperationError>)
    ensures r.Success? ==> execute(p, context, op) == Success(r.value)
    ensures r.Success? ==> r.value.NullValue? || InstanceOf(r.value, ReturnType(op))
    ensures execute(p, context, op).Failure? ==> r == Failure(Raised(execute(p, context, op).error))
    ensures r.Failure? && r.error.ClassCastException? ==>
              execute(p, context, op).Success? && !InstanceOf(execute(p, context, op).value, ReturnType(op))
    ensures execute(p, context, op).Success? ==>
              var v := execute(p, context, op).value;
              !(v.NullValue? || InstanceOf(v, ReturnType(op))) ==> r == Failure(ClassCastException(ReturnType(op)))
    ensures execute(p, context, op).Success? ==>
              var v := execute(p, context, op).value;
              (v.NullValue? || InstanceOf(v, ReturnType(op))) ==> r == Success(v)
  {
    match execute(p, context, op)
    case Failure(e) => Failure(Raised(e))
    case Success(v) => Cast(v, ReturnType(op))
  }

  /**
   * The result of an operation is never mistyped: whatever the runtime
   * returns, a normal return carries `null` or a value of the method's
   * declared type, and any well-typed runtime value is returned unchanged.
   */
  lemma InvokeReturnsWellTypedValues(p: GithubPlatform, context: StateContext, op: Operation,
                                     execute: (GithubPlatform, StateContext, Operation) -> Result<RuntimeValue, XatkitException>)
    requires execute(p, context, op).Success?
    ensures Invoke(p, context, op, execute).Success? <==>
              var v := execute(p, context, op).value; v.NullValue? || InstanceOf(v, ReturnType(op))
  {
  }
}
