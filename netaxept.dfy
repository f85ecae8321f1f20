/**
 * The Netaxept gateway adapter: it assembles the parameters of each
 * payment operation, routes the operation to its endpoint, sends one GET,
 * and classifies the parsed XML reply into a success flag, a message, an
 * authorization (the transaction id) and, for registration, the URL of the
 * hosted payment terminal.
 */
module Netaxept {
  import opened Wrappers
  import opened RubyValues
  import opened OrderedHashes
  import opened UrlEncoding
  import opened XmlTree

  const TestUrl := "https://epayment-test.bbs.no/"
  const LiveUrl := "https://epayment.bbs.no/"
  const RegisterPath := "Netaxept/Register.aspx"
  const ProcessPath := "Netaxept/Process.aspx"
  const QueryPath := "Netaxept/Query.aspx"
  const TerminalPath := "terminal/default.aspx"

  // ---- URLs ------------------------------------------------------------------

  /** `url`: the test or the live base. */
  function BaseUrl(test: bool): string {
    if test then TestUrl else LiveUrl
  }

  /** `build_url(base, parameters)`: base URL, path, and `?` plus the encoding whenever parameters are given. */
  function BuildUrl(test: bool, path: string, parameters: Option<Entries>): string {
    BaseUrl(test) + path + (if parameters.Some? then "?" + Encode(parameters.value) else "")
  }

  /** Whatever precedes a `?` followed by encoded parameters, the rest of the string decodes to them. */
  lemma QueryAfter(prefix: string, e: Entries)
    ensures var url := prefix + "?" + Encode(e);
      && |url| > |prefix| && url[..|prefix|] == prefix && url[|prefix|] == '?'
      && DecodeQuery(url[|prefix| + 1..]) == Some(StringPairs(e))
  {
    var url := prefix + "?" + Encode(e);
    assert url[|prefix| + 1..] == Encode(e);
    assert url[..|prefix|] == prefix;
    EncodeRoundTrip(e);
  }

  /**
   * A built URL is the base, then the path, then (only when parameters are
   * given, even none) a `?` and a query string that decodes to exactly the
   * parameters' keys and string values, in order.
   */
  lemma BuildUrlParts(test: bool, path: string, parameters: Option<Entries>)
    ensures var url := BuildUrl(test, path, parameters);
      var prefix := BaseUrl(test) + path;
      && url[..|prefix|] == prefix
      && (parameters.None? ==> url == prefix)
      && (parameters.Some? ==>
            && |url| > |prefix| && url[|prefix|] == '?'
            && DecodeQuery(url[|prefix| + 1..]) == Some(StringPairs(parameters.value)))
      && (parameters == Some([]) ==> url == prefix + "?")
  {
    var prefix := BaseUrl(test) + path;
    if parameters.Some? {
      assert BuildUrl(test, path, parameters) == prefix + "?" + Encode(parameters.value);
      QueryAfter(prefix, parameters.value);
      EncodeEmpty(parameters.value);
    } else {
      assert BuildUrl(test, path, parameters) == prefix + "";
    }
  }

  /** The hosted-terminal redirect for a registered transaction. */
  function TerminalUrl(test: bool, merchantId: Value, authorization: Tree): string {
    BuildUrl(test, TerminalPath, Some([("MerchantID", merchantId), ("TransactionID", TreeValue(authorization))]))
  }

  /** The query string of a terminal URL. */
  function QueryOf(merchantId: Value, authorization: Tree): string {
    Encode([("MerchantID", merchantId), ("TransactionID", TreeValue(authorization))])
  }

  lemma TwoPairs(k1: string, v1: Value, k2: string, v2: Value)
    ensures StringPairs([(k1, v1), (k2, v2)]) == [(k1, ToS(v1)), (k2, ToS(v2))]
  {
  }

  /** The terminal URL names the merchant and the transaction, in that order, as its query. */
  lemma TerminalUrlQuery(test: bool, merchantId: Value, authorization: Tree)
    ensures var prefix := BaseUrl(test) + TerminalPath;
      TerminalUrl(test, merchantId, authorization) == prefix + "?" + QueryOf(merchantId, authorization)
    ensures DecodeQuery(QueryOf(merchantId, authorization)) ==
      Some([("MerchantID", ToS(merchantId)), ("TransactionID", ToS(TreeValue(authorization)))])
  {
    var ps := [("MerchantID", merchantId), ("TransactionID", TreeValue(authorization))];
    EncodeRoundTrip(ps);
    TwoPairs("MerchantID", merchantId, "TransactionID", TreeValue(authorization));
  }

  // ---- routing ---------------------------------------------------------------

  /** String#downcase on one ASCII letter. */
  function LowerChar(c: char): char {
    if 'A' <= c <= 'Z' then (c as int + 32) as char else c
  }

  /** String#downcase on ASCII letters. */
  function Downcase(s: string): string {
    seq(|s|, i requires 0 <= i < |s| => LowerChar(s[i]))
  }

  /** The three `commit_transaction_*` methods `commit` dispatches to. */
  datatype Handler = RegisterTransaction | ProcessTransaction(action: string) | QueryTransaction {

    /** The endpoint the handler sends to. */
    function Path(): string {
      match this
      case RegisterTransaction => RegisterPath
      case ProcessTransaction(_) => ProcessPath
      case QueryTransaction => QueryPath
    }

    /** The key under which the handler files the parsed reply in the response hash. */
    function Slot(): string {
      match this
      case RegisterTransaction => "setup"
      case ProcessTransaction(action) => Downcase(action)
      case QueryTransaction => "query"
    }
  }

  /** The `case action` of `commit`. */
  function Dispatch(action: string): Result<Handler, Error> {
    if action == "REGISTER" then Success(RegisterTransaction)
    else if action == "SALE" || action == "AUTH" || action == "CAPTURE" || action == "CREDIT" || action == "ANNUL" then
      Success(ProcessTransaction(action))
    else if action == "QUERY" then Success(QueryTransaction)
    else Failure(UnsupportedAction)
  }

  predicate KnownAction(action: string) {
    action in {"REGISTER", "SALE", "AUTH", "CAPTURE", "CREDIT", "ANNUL", "QUERY"}
  }

  /** `commit` knows seven verbs and refuses every other one. */
  lemma DispatchKnown(action: string)
    ensures Dispatch(action).Success? <==> KnownAction(action)
    ensures Dispatch(action).Failure? ==> Dispatch(action).error == UnsupportedAction
  {
  }

  /** The endpoint of every verb. */
  lemma RoutingTable()
    ensures Dispatch("REGISTER") == Success(RegisterTransaction) && RegisterTransaction.Path() == RegisterPath
    ensures Dispatch("QUERY") == Success(QueryTransaction) && QueryTransaction.Path() == QueryPath
    ensures Dispatch("SALE") == Success(ProcessTransaction("SALE"))
    ensures Dispatch("AUTH") == Success(ProcessTransaction("AUTH"))
    ensures Dispatch("CAPTURE") == Success(ProcessTransaction("CAPTURE"))
    ensures Dispatch("CREDIT") == Success(ProcessTransaction("CREDIT"))
    ensures Dispatch("ANNUL") == Success(ProcessTransaction("ANNUL"))
    ensures forall a :: ProcessTransaction(a).Path() == ProcessPath
  {
  }

  /** The response slot of every verb: `setup`, `query`, or the downcased verb. */
  lemma SlotTable()
    ensures RegisterTransaction.Slot() == "setup" && QueryTransaction.Slot() == "query"
    ensures ProcessTransaction("SALE").Slot() == "sale"
    ensures ProcessTransaction("AUTH").Slot() == "auth"
    ensures ProcessTransaction("CAPTURE").Slot() == "capture"
    ensures ProcessTransaction("CREDIT").Slot() == "credit"
    ensures ProcessTransaction("ANNUL").Slot() == "annul"
  {
  }

  // ---- classification ----------------------------------------------------------

  /** The root-name test of `process`: a case-sensitive match of `Exception` or `Error` anywhere. */
  predicate IsExceptionContainer(container: string) {
    Contains(container, "Exception") || Contains(container, "Error")
  }

  /** A root name without a capital E is never an exception container. */
  lemma OrdinaryContainer(container: string)
    requires forall i :: 0 <= i < |container| ==> container[i] != 'E'
    ensures !IsExceptionContainer(container)
  {
    ContainsNeedsFirstChar(container, "Exception");
    ContainsNeedsFirstChar(container, "Error");
  }

  /** `was_successful?`. */
  function WasSuccessful(fields: map<string, Tree>): bool {
    var code := Field(fields, "ResponseCode");
    if TreeTruthy(code) && code == Leaf(Some("OK")) then true
    else if !TreeTruthy(code) then true
    else false
  }

  /** What `process` decides about one parsed reply. */
  datatype Verdict =
    | Thrown(message: Tree, authorization: Tree)      // the exception branch, ending in `throw :exception`
    | Classified(authorization: Tree, success: bool)  // the ordinary branch

  /**
   * `process` on a parsed reply. In the exception branch `['Error']['Message']`
   * is read before `['Error']` is tested, so a missing `Error` raises.
   */
  function Classify(p: Parsed): Result<Verdict, Error> {
    if IsExceptionContainer(p.container) then
      var error := Field(p.fields, "Error");
      var message :- Index(error, "Message");
      // past the line above `error` is not nil, so its `['Result']` is defined
      var authorization :=
        if TreeTruthy(error) && TreeTruthy(Index(error, "Result").value) then
          Index(Index(error, "Result").value, "TransactionId").value
        else Leaf(Some("error"));
      Success(Thrown(message, authorization))
    else
      Success(Classified(Field(p.fields, "TransactionId"), WasSuccessful(p.fields)))
  }

  /** `ResponseCode` decides: success exactly when it is absent, empty, or the text `OK`. */
  lemma SuccessRule(fields: map<string, Tree>)
    ensures WasSuccessful(fields) <==>
      ("ResponseCode" !in fields || fields["ResponseCode"] == Nil || fields["ResponseCode"] == Leaf(Some("OK")))
  {
  }

  /**
   * The exception branch: it raises exactly when there is no `Error` child;
   * otherwise the message is `Error['Message']` and the authorization is
   * `Error['Result']['TransactionId']` when there is a `Result`, else the
   * sentinel "error". For the usual hash-valued `Error` that is plain lookup.
   */
  lemma ExceptionVerdict(p: Parsed)
    requires IsExceptionContainer(p.container)
    ensures Classify(p).Failure? <==> Field(p.fields, "Error") == Nil
    ensures Classify(p).Success? ==> Classify(p).value.Thrown?
    ensures Field(p.fields, "Error").Node? ==>
      var e := Field(p.fields, "Error").children;
      var result := Field(e, "Result");
      Classify(p) == Success(Thrown(
        Field(e, "Message"),
        if result == Nil then Leaf(Some("error")) else Index(result, "TransactionId").value))
  {
  }

  /**
   * The ordinary branch never raises: the authorization is the top-level
   * `TransactionId`, and success follows the `ResponseCode` rule.
   */
  lemma OrdinaryVerdict(p: Parsed)
    requires !IsExceptionContainer(p.container)
    ensures Classify(p) == Success(Classified(Field(p.fields, "TransactionId"), WasSuccessful(p.fields)))
    ensures Classify(p).value.success <==>
      ("ResponseCode" !in p.fields || p.fields["ResponseCode"] in {Nil, Leaf(Some("OK"))})
  {
    SuccessRule(p.fields);
  }

  // ---- the response hash ---------------------------------------------------------

  /** The observable contents of the `response` hash `commit` fills. */
  datatype ResponseState = ResponseState(
    success: bool,
    message: Tree,
    authorization: Tree,
    terminalUrl: Option<string>,
    slots: map<string, Parsed>)

  /** `{:success => false}`. */
  const InitialState := ResponseState(false, Nil, Nil, None, map[])

  /** What `process` writes into the response hash. */
  function ApplyVerdict(st: ResponseState, v: Verdict): ResponseState {
    match v
    case Thrown(message, authorization) => st.(message := message, authorization := authorization)
    case Classified(authorization, success) => st.(authorization := authorization, success := success)
  }

  class ResponseHash {
    var success: bool
    var message: Tree
    var authorization: Tree
    var terminalUrl: Option<string>
    var slots: map<string, Parsed>

    constructor ()
      ensures State() == InitialState
    {
      success, message, authorization, terminalUrl, slots := false, Nil, Nil, None, map[];
    }

    function State(): ResponseState
      reads this
    {
      ResponseState(success, message, authorization, terminalUrl, slots)
    }
  }

  /** `throw :exception` or falling through. */
  datatype Signal = Proceed | ThrowException

  /**
   * One `commit_transaction_*` on a response state: GET the endpoint, file
   * the parsed reply under the handler's slot, run `process`, and, for
   * registration when nothing was thrown, add the terminal URL.
   */
  function Transact(test: bool, handler: Handler, params: Entries, fetch: string -> Reply, st: ResponseState)
    : Result<(Signal, ResponseState), Error>
  {
    var parsed :- ParseReply(fetch(BuildUrl(test, handler.Path(), Some(params))));
    var filed := st.(slots := st.slots[handler.Slot() := parsed]);
    var verdict :- Classify(parsed);
    var processed := ApplyVerdict(filed, verdict);
    if verdict.Thrown? then Success((ThrowException, processed))
    else if handler.RegisterTransaction? then
      Success((Proceed,
        processed.(terminalUrl := Some(TerminalUrl(test, Lookup(params, "merchantId"), processed.authorization)))))
    else Success((Proceed, processed))
  }

  /** The value `commit` returns (`Response.new`). */
  datatype Response = Response(
    success: bool,
    message: Tree,
    authorization: Tree,
    terminalUrl: Option<string>,
    test: bool,
    raw: map<string, Parsed>)

  /** `commit(action, parameters)` once `parameters[:operation]` is set. */
  function CommitOutcome(test: bool, action: string, params: Entries, fetch: string -> Reply): Result<Response, Error> {
    var handler :- Dispatch(action);
    var transacted :- Transact(test, handler, params, fetch, InitialState);
    var st := transacted.1;
    Success(Response(st.success, st.message, st.authorization, st.terminalUrl, test, st.slots))
  }

  /** The parsed reply to `params` sent for `action`. */
  function ReplyFor(test: bool, action: string, params: Entries, fetch: string -> Reply): Result<Parsed, Error>
    requires Dispatch(action).Success?
  {
    ParseReply(fetch(BuildUrl(test, Dispatch(action).value.Path(), Some(params))))
  }

  /**
   * `commit` sends `params` to the action's endpoint and files the reply under
   * its slot; an unknown action raises whatever the reply would be, any
   * failure to fetch, parse or read the reply raises, and nothing else does.
   */
  lemma CommitRouting(test: bool, action: string, params: Entries, fetch: string -> Reply)
    ensures !KnownAction(action) ==> CommitOutcome(test, action, params, fetch) == Failure(UnsupportedAction)
    ensures KnownAction(action) ==>
      var reply := ReplyFor(test, action, params, fetch);
      && (reply.Failure? ==> CommitOutcome(test, action, params, fetch) == Failure(reply.error))
      && (reply.Success? ==>
            && (CommitOutcome(test, action, params, fetch).Failure? <==> Classify(reply.value).Failure?)
            && (CommitOutcome(test, action, params, fetch).Success? ==>
                  var r := CommitOutcome(test, action, params, fetch).value;
                  r.raw == map[Dispatch(action).value.Slot() := reply.value] && r.test == test))
  {
    DispatchKnown(action);
  }

  /**
   * A reply whose root names an exception is never a success and gets no
   * terminal URL; its message and authorization are those of the exception
   * branch.
   */
  lemma ExceptionOutcome(test: bool, action: string, params: Entries, fetch: string -> Reply)
    requires KnownAction(action)
    requires ReplyFor(test, action, params, fetch).Success?
    requires IsExceptionContainer(ReplyFor(test, action, params, fetch).value.container)
    requires CommitOutcome(test, action, params, fetch).Success?
    ensures var r := CommitOutcome(test, action, params, fetch).value;
      var v := Classify(ReplyFor(test, action, params, fetch).value).value;
      && !r.success
      && r.terminalUrl.None?
      && v.Thrown?
      && r.message == v.message
      && r.authorization == v.authorization
  {
    DispatchKnown(action);
    ExceptionVerdict(ReplyFor(test, action, params, fetch).value);
  }

  /**
   * Any other reply: the authorization is the top-level `TransactionId`,
   * success follows `ResponseCode`, the message stays nil, and a terminal URL
   * carrying the merchant id and that authorization appears exactly for a
   * registration.
   */
  lemma OrdinaryOutcome(test: bool, action: string, params: Entries, fetch: string -> Reply)
    requires KnownAction(action)
    requires ReplyFor(test, action, params, fetch).Success?
    requires !IsExceptionContainer(ReplyFor(test, action, params, fetch).value.container)
    ensures CommitOutcome(test, action, params, fetch).Success?
    ensures var r := CommitOutcome(test, action, params, fetch).value;
      var fields := ReplyFor(test, action, params, fetch).value.fields;
      && r.authorization == Field(fields, "TransactionId")
      && (r.success <==> ("ResponseCode" !in fields || fields["ResponseCode"] in {Nil, Leaf(Some("OK"))}))
      && r.message == Nil
      && (r.terminalUrl.Some? <==> action == "REGISTER")
      && (r.terminalUrl.Some? ==> r.terminalUrl.value == TerminalUrl(test, Lookup(params, "merchantId"), r.authorization))
  {
    DispatchKnown(action);
    OrdinaryVerdict(ReplyFor(test, action, params, fetch).value);
  }

  /**
   * Whatever `commit` returns, its authorization came out of the reply: the
   * top-level `TransactionId`, `Error['Result']['TransactionId']`, or the
   * sentinel "error" of an exception without a `Result`.
   */
  lemma AuthorizationSource(test: bool, action: string, params: Entries, fetch: string -> Reply)
    requires CommitOutcome(test, action, params, fetch).Success?
    ensures KnownAction(action) && ReplyFor(test, action, params, fetch).Success?
    ensures var r := CommitOutcome(test, action, params, fetch).value;
      var p := ReplyFor(test, action, params, fetch).value;
      var error := Field(p.fields, "Error");
      || (!IsExceptionContainer(p.container) && r.authorization == Field(p.fields, "TransactionId"))
      || (IsExceptionContainer(p.container) && r.authorization == Leaf(Some("error")))
      || (IsExceptionContainer(p.container) && error != Nil && Index(error, "Result").value != Nil
          && r.authorization == Index(Index(error, "Result").value, "TransactionId").value)
  {
    DispatchKnown(action);
    var p := ReplyFor(test, action, params, fetch).value;
    if IsExceptionContainer(p.container) {
      ExceptionOutcome(test, action, params, fetch);
    } else {
      OrdinaryOutcome(test, action, params, fetch);
    }
  }

  // ---- request parameters ----------------------------------------------------

  /** `amount(money)`: the integer amount in minor units as a decimal string, nil for no money. */
  function Amount(money: Option<int>): Value {
    match money
    case None => NilValue
    case Some(cents) => Str(Decimal(cents))
  }

  /** What `add_credentials` stores. */
  function WithCredentials(post: Entries, login: Value, password: Value): Entries {
    Store(Store(post, "merchantId", login), "token", password)
  }

  /** What `add_new_transaction` stores. */
  function WithNewTransaction(post: Entries, generatedId: string): Entries {
    Store(post, "transactionId", Str(generatedId))
  }

  /** What `add_existing_transaction` stores. */
  function WithExistingTransaction(post: Entries, options: Entries): Entries {
    Store(post, "transactionId", Lookup(options, "transaction_id"))
  }

  /** What `add_transaction_amount` stores. */
  function WithTransactionAmount(post: Entries, money: Value): Entries {
    Store(post, "transactionAmount", money)
  }

  /** What `add_terminal` stores. */
  function WithTerminal(post: Entries, options: Entries): Entries {
    var p1 := Store(post, "serviceType", Str("B"));
    var p2 := Store(p1, "orderDescription", Lookup(options, "description"));
    var p3 := Store(p2, "language", Or(Lookup(options, "language"), Str("nb_NO")));
    Store(p3, "redirectUrl", Or(Lookup(options, "redirect_url"), Str("http://example.com")))
  }

  /** What `add_order` stores. */
  function WithOrder(post: Entries, money: Option<int>, options: Entries, moneyCurrency: string): Entries {
    var p1 := Store(post, "orderNumber", Lookup(options, "order_id"));
    var p2 := Store(p1, "currencyCode", Or(Lookup(options, "currency"), Str(moneyCurrency)));
    Store(p2, "amount", Amount(money))
  }

  /** The parameters `register` commits, with `operation` set by `commit`. */
  function RegisterRequest(login: Value, password: Value, generatedId: string, options: Entries,
                           money: Option<int>, moneyCurrency: string): Entries
  {
    var post := WithCredentials([], login, password);
    var post' := WithOrder(WithTerminal(WithNewTransaction(post, generatedId), options), money, options, moneyCurrency);
    Store(post', "operation", Str("REGISTER"))
  }

  /** The parameters purchase, authorize, void and query commit (`amount` None), and capture (`amount` Some). */
  function ExistingRequest(login: Value, password: Value, options: Entries, amount: Option<Value>, action: string)
    : Entries
  {
    var post := WithExistingTransaction(WithCredentials([], login, password), options);
    var post' := if amount.Some? then WithTransactionAmount(post, amount.value) else post;
    Store(post', "operation", Str(action))
  }

  /** What `credit` commits: the caller's own options with `operation` stored into them. */
  function CreditRequest(options: Entries): Entries {
    Store(options, "operation", Str("CREDIT"))
  }

  /** No entry of `post` carries any of `keys`. */
  ghost predicate FreshKeys(post: Entries, keys: set<string>) {
    forall i :: 0 <= i < |post| ==> post[i].0 !in keys
  }

  lemma FreshConcat(a: Entries, b: Entries, keys: set<string>)
    requires FreshKeys(a, keys) && FreshKeys(b, keys)
    ensures FreshKeys(a + b, keys)
  {
    forall i | 0 <= i < |a + b|
      ensures (a + b)[i].0 !in keys
    {
      if i >= |a| {
        assert (a + b)[i] == b[i - |a|];
      }
    }
  }

  lemma CredentialsAppend(post: Entries, login: Value, password: Value)
    requires FreshKeys(post, {"merchantId", "token"})
    ensures WithCredentials(post, login, password) == post + [("merchantId", login), ("token", password)]
  {
    StoreNew(post, "merchantId", login);
    StoreNew(post + [("merchantId", login)], "token", password);
  }

  lemma TerminalAppend(post: Entries, options: Entries)
    requires FreshKeys(post, {"serviceType", "orderDescription", "language", "redirectUrl"})
    ensures WithTerminal(post, options) == post +
      [ ("serviceType", Str("B")),
        ("orderDescription", Lookup(options, "description")),
        ("language", Or(Lookup(options, "language"), Str("nb_NO"))),
        ("redirectUrl", Or(Lookup(options, "redirect_url"), Str("http://example.com"))) ]
  {
    var p1 := post + [("serviceType", Str("B"))];
    var p2 := p1 + [("orderDescription", Lookup(options, "description"))];
    var p3 := p2 + [("language", Or(Lookup(options, "language"), Str("nb_NO")))];
    StoreNew(post, "serviceType", Str("B"));
    StoreNew(p1, "orderDescription", Lookup(options, "description"));
    StoreNew(p2, "language", Or(Lookup(options, "language"), Str("nb_NO")));
    StoreNew(p3, "redirectUrl", Or(Lookup(options, "redirect_url"), Str("http://example.com")));
  }

  lemma OrderAppend(post: Entries, money: Option<int>, options: Entries, moneyCurrency: string)
    requires FreshKeys(post, {"orderNumber", "currencyCode", "amount"})
    ensures WithOrder(post, money, options, moneyCurrency) == post +
      [ ("orderNumber", Lookup(options, "order_id")),
        ("currencyCode", Or(Lookup(options, "currency"), Str(moneyCurrency))),
        ("amount", Amount(money)) ]
  {
    var p1 := post + [("orderNumber", Lookup(options, "order_id"))];
    var p2 := p1 + [("currencyCode", Or(Lookup(options, "currency"), Str(moneyCurrency)))];
    StoreNew(post, "orderNumber", Lookup(options, "order_id"));
    StoreNew(p1, "currencyCode", Or(Lookup(options, "currency"), Str(moneyCurrency)));
    StoreNew(p2, "amount", Amount(money));
  }

  /** The first seven REGISTER parameters: credentials, the new transaction id, and the terminal's four. */
  lemma RegisterHead(login: Value, password: Value, generatedId: string, options: Entries)
    ensures WithTerminal(WithNewTransaction(WithCredentials([], login, password), generatedId), options) ==
      [("merchantId", login), ("token", password), ("transactionId", Str(generatedId))]
      + [ ("serviceType", Str("B")),
          ("orderDescription", Lookup(options, "description")),
          ("language", Or(Lookup(options, "language"), Str("nb_NO"))),
          ("redirectUrl", Or(Lookup(options, "redirect_url"), Str("http://example.com"))) ]
  {
    var c := [("merchantId", login), ("token", password)];
    CredentialsAppend([], login, password);
    assert [] + c == c;
    var t := [("merchantId", login), ("token", password), ("transactionId", Str(generatedId))];
    StoreNew(c, "transactionId", Str(generatedId));
    assert c + [("transactionId", Str(generatedId))] == t;
    TerminalAppend(t, options);
  }

  /**
   * A REGISTER request is exactly these eleven parameters, in this order:
   * credentials, the new transaction id, the terminal's four, the order's
   * three, and `operation`.
   */
  lemma RegisterRequestEntries(login: Value, password: Value, generatedId: string, options: Entries,
                               money: Option<int>, moneyCurrency: string)
    ensures RegisterRequest(login, password, generatedId, options, money, moneyCurrency) ==
      [("merchantId", login), ("token", password), ("transactionId", Str(generatedId))]
      + [ ("serviceType", Str("B")),
          ("orderDescription", Lookup(options, "description")),
          ("language", Or(Lookup(options, "language"), Str("nb_NO"))),
          ("redirectUrl", Or(Lookup(options, "redirect_url"), Str("http://example.com"))) ]
      + [ ("orderNumber", Lookup(options, "order_id")),
          ("currencyCode", Or(Lookup(options, "currency"), Str(moneyCurrency))),
          ("amount", Amount(money)) ]
      + [("operation", Str("REGISTER"))]
  {
    var t := [("merchantId", login), ("token", password), ("transactionId", Str(generatedId))];
    var terminal :=
      [ ("serviceType", Str("B")),
        ("orderDescription", Lookup(options, "description")),
        ("language", Or(Lookup(options, "language"), Str("nb_NO"))),
        ("redirectUrl", Or(Lookup(options, "redirect_url"), Str("http://example.com"))) ];
    var order :=
      [ ("orderNumber", Lookup(options, "order_id")),
        ("currencyCode", Or(Lookup(options, "currency"), Str(moneyCurrency))),
        ("amount", Amount(money)) ];
    RegisterHead(login, password, generatedId, options);
    FreshConcat(t, terminal, {"orderNumber", "currencyCode", "amount"});
    OrderAppend(t + terminal, money, options, moneyCurrency);
    FreshConcat(t, terminal, {"operation"});
    FreshConcat(t + terminal, order, {"operation"});
    StoreNew(t + terminal + order, "operation", Str("REGISTER"));
  }

  /**
   * REGISTER's parameters: credentials first and `operation` last, service
   * type B, and language nb_NO, redirect URL http://example.com and the
   * money's currency whenever the options give no truthy value; the amount's
   * decimal string reads back as the amount.
   */
  lemma RegisterDefaults(login: Value, password: Value, generatedId: string, options: Entries,
                         money: Option<int>, moneyCurrency: string)
    ensures var req := RegisterRequest(login, password, generatedId, options, money, moneyCurrency);
      && |req| == 11
      && req[0] == ("merchantId", login) && req[1] == ("token", password)
      && req[3] == ("serviceType", Str("B"))
      && req[5].0 == "language"
      && req[5].1 == (if Truthy(Lookup(options, "language")) then Lookup(options, "language") else Str("nb_NO"))
      && req[6].0 == "redirectUrl"
      && req[6].1 ==
           (if Truthy(Lookup(options, "redirect_url")) then Lookup(options, "redirect_url") else Str("http://example.com"))
      && req[7] == ("orderNumber", Lookup(options, "order_id"))
      && req[8].0 == "currencyCode"
      && req[8].1 == (if Truthy(Lookup(options, "currency")) then Lookup(options, "currency") else Str(moneyCurrency))
      && req[9].0 == "amount"
      && (money.Some? ==> ParseDecimal(ToS(req[9].1)) == Some(money.value))
      && (money.None? ==> req[9].1 == NilValue)
      && req[10] == ("operation", Str("REGISTER"))
  {
    RegisterRequestEntries(login, password, generatedId, options, money, moneyCurrency);
    if money.Some? {
      DecimalRoundTrip(money.value);
    }
  }

  /**
   * Every other gateway-built request: credentials, the caller's
   * transaction id, the amount for CAPTURE only, and `operation` last.
   */
  lemma ExistingRequestEntries(login: Value, password: Value, options: Entries, amount: Option<Value>, action: string)
    ensures ExistingRequest(login, password, options, amount, action) ==
      [("merchantId", login), ("token", password), ("transactionId", Lookup(options, "transaction_id"))]
      + (if amount.Some? then [("transactionAmount", amount.value)] else [])
      + [("operation", Str(action))]
  {
    var l := [("merchantId", login), ("token", password), ("transactionId", Lookup(options, "transaction_id"))];
    StoreNew(l[..1], l[1].0, l[1].1);
    assert l[..2] == l[..1] + [l[1]];
    StoreNew(l[..2], l[2].0, l[2].1);
    assert l == l[..2] + [l[2]];
    if amount.Some? {
      StoreNew(l, "transactionAmount", amount.value);
      StoreNew(l + [("transactionAmount", amount.value)], "operation", Str(action));
    } else {
      StoreNew(l, "operation", Str(action));
    }
  }

  /**
   * CREDIT carries none of the gateway's credentials and no amount of its
   * own: every parameter other than `operation` is whatever the caller's
   * options held, in the caller's order.
   */
  lemma CreditRequestIsCallerOptions(options: Entries, key: string)
    ensures Lookup(CreditRequest(options), "operation") == Str("CREDIT")
    ensures key != "operation" ==> Lookup(CreditRequest(options), key) == Lookup(options, key)
    ensures Keys(CreditRequest(options)) ==
      if HasKey(options, "operation") then Keys(options) else Keys(options) + ["operation"]
  {
    LookupStore(options, "operation", Str("CREDIT"), key);
    KeysStore(options, "operation", Str("CREDIT"));
  }

  // ---- the gateway ------------------------------------------------------------------

  class NetaxeptGateway {
    const login: Value
    const password: Value
    const test: bool

    constructor (login: Value, password: Value, test: bool)
      ensures this.login == login && this.password == password && this.test == test
    {
      this.login, this.password, this.test := login, password, test;
    }

    /**
     * `NetaxeptGateway.new(options)`: `:login` and `:password` are required;
     * `test?` is the `:test` option or the global test mode.
     */
    static method New(options: OrderedHash, gatewayModeIsTest: bool) returns (r: Result<NetaxeptGateway, Error>)
      ensures !options.Has("login") ==> r == Failure(MissingParameter("login"))
      ensures options.Has("login") && !options.Has("password") ==> r == Failure(MissingParameter("password"))
      ensures options.Has("login") && options.Has("password") ==>
        && r.Success? && fresh(r.value)
        && r.value.login == options.Get("login") && r.value.password == options.Get("password")
        && r.value.test == (Truthy(options.Get("test")) || gatewayModeIsTest)
    {
      if !options.Has("login") {
        return Failure(MissingParameter("login"));
      }
      if !options.Has("password") {
        return Failure(MissingParameter("password"));
      }
      var gateway := new NetaxeptGateway(options.Get("login"), options.Get("password"),
                                         Truthy(options.Get("test")) || gatewayModeIsTest);
      r := Success(gateway);
    }

    // -- the add_* helpers, each filling `post` in place

    method AddCredentials(post: OrderedHash)
      requires post.Valid()
      modifies post
      ensures post.Valid()
      ensures post.entries == WithCredentials(old(post.entries), login, password)
    {
      post.Put("merchantId", login);
      post.Put("token", password);
    }

    method AddOrder(post: OrderedHash, money: Option<int>, options: OrderedHash, moneyCurrency: string)
      requires post.Valid() && post != options
      modifies post
      ensures post.Valid()
      ensures post.entries == WithOrder(old(post.entries), money, options.entries, moneyCurrency)
    {
      post.Put("orderNumber", options.Get("order_id"));
      post.Put("currencyCode", Or(options.Get("currency"), Str(moneyCurrency)));
      post.Put("amount", Amount(money));
    }

    method AddTerminal(post: OrderedHash, options: OrderedHash)
      requires post.Valid() && post != options
      modifies post
      ensures post.Valid()
      ensures post.entries == WithTerminal(old(post.entries), options.entries)
    {
      post.Put("serviceType", Str("B"));
      post.Put("orderDescription", options.Get("description"));
      post.Put("language", Or(options.Get("language"), Str("nb_NO")));
      post.Put("redirectUrl", Or(options.Get("redirect_url"), Str("http://example.com")));
    }

    method AddTransactionAmount(post: OrderedHash, money: Value)
      requires post.Valid()
      modifies post
      ensures post.Valid() && post.entries == WithTransactionAmount(old(post.entries), money)
    {
      post.Put("transactionAmount", money);
    }

    /** `transactionId` from `generate_transaction_id`, whose digest is taken as given. */
    method AddNewTransaction(post: OrderedHash, generatedId: string)
      requires post.Valid()
      modifies post
      ensures post.Valid() && post.entries == WithNewTransaction(old(post.entries), generatedId)
    {
      post.Put("transactionId", Str(generatedId));
    }

    method AddExistingTransaction(post: OrderedHash, options: OrderedHash)
      requires post.Valid() && post != options
      modifies post
      ensures post.Valid()
      ensures post.entries == WithExistingTransaction(old(post.entries), options.entries)
    {
      post.Put("transactionId", options.Get("transaction_id"));
    }

    // -- commit and the response hash

    /** `process(response, key)`. */
    method Process(response: ResponseHash, key: string) returns (r: Result<Signal, Error>)
      requires key in response.slots
      modifies response
      ensures var v := Classify(old(response.slots)[key]);
        && (v.Failure? ==> r == Failure(v.error) && response.State() == old(response.State()))
        && (v.Success? ==>
              && r == Success(if v.value.Thrown? then ThrowException else Proceed)
              && response.State() == ApplyVerdict(old(response.State()), v.value))
    {
      var parsed := response.slots[key];
      if IsExceptionContainer(parsed.container) {
        var error := Field(parsed.fields, "Error");
        var message := Index(error, "Message");
        if message.Failure? {
          return Failure(message.error);
        }
        response.message := message.value;
        if TreeTruthy(error) && TreeTruthy(Index(error, "Result").value) {
          response.authorization := Index(Index(error, "Result").value, "TransactionId").value;
        } else {
          response.authorization := Leaf(Some("error"));
        }
        r := Success(ThrowException);
      } else {
        response.authorization := Field(parsed.fields, "TransactionId");
        response.success := WasSuccessful(parsed.fields);
        r := Success(Proceed);
      }
    }

    /** `add_terminal_url(response, parameters)`. */
    method AddTerminalUrl(response: ResponseHash, parameters: OrderedHash)
      modifies response
      ensures response.State() == old(response.State()).(terminalUrl :=
        Some(TerminalUrl(test, parameters.Get("merchantId"), old(response.authorization))))
    {
      var params := [("MerchantID", parameters.Get("merchantId")), ("TransactionID", TreeValue(response.authorization))];
      response.terminalUrl := Some(BuildUrl(test, TerminalPath, Some(params)));
    }

    /** The part of a `commit_transaction_*` method after the GET, shared by all three. */
    method FileAndProcess(handler: Handler, response: ResponseHash, parameters: OrderedHash, reply: Reply)
      returns (r: Result<Signal, Error>)
      modifies response
      ensures var t := Transact(test, handler, parameters.entries, _ => reply, old(response.State()));
        && (t.Failure? ==> r == Failure(t.error))
        && (t.Success? ==> r == Success(t.value.0) && response.State() == t.value.1)
    {
      var parsed := Parse(reply);
      if parsed.Failure? {
        return Failure(parsed.error);
      }
      response.slots := response.slots[handler.Slot() := parsed.value];
      r := Process(response, handler.Slot());
      if handler.RegisterTransaction? && r == Success(Proceed) {
        AddTerminalUrl(response, parameters);
      }
    }

    method CommitTransactionRegister(response: ResponseHash, parameters: OrderedHash, fetch: string -> Reply)
      returns (r: Result<Signal, Error>)
      modifies response
      ensures var t := Transact(test, RegisterTransaction, parameters.entries, fetch, old(response.State()));
        && (t.Failure? ==> r == Failure(t.error))
        && (t.Success? ==> r == Success(t.value.0) && response.State() == t.value.1)
    {
      var reply := fetch(BuildUrl(test, RegisterPath, Some(parameters.entries)));
      r := FileAndProcess(RegisterTransaction, response, parameters, reply);
    }

    method CommitTransactionProcess(action: string, response: ResponseHash, parameters: OrderedHash,
                                    fetch: string -> Reply)
      returns (r: Result<Signal, Error>)
      modifies response
      ensures var t := Transact(test, ProcessTransaction(action), parameters.entries, fetch, old(response.State()));
        && (t.Failure? ==> r == Failure(t.error))
        && (t.Success? ==> r == Success(t.value.0) && response.State() == t.value.1)
    {
      var reply := fetch(BuildUrl(test, ProcessPath, Some(parameters.entries)));
      r := FileAndProcess(ProcessTransaction(action), response, parameters, reply);
    }

    method CommitTransactionQuery(response: ResponseHash, parameters: OrderedHash, fetch: string -> Reply)
      returns (r: Result<Signal, Error>)
      modifies response
      ensures var t := Transact(test, QueryTransaction, parameters.entries, fetch, old(response.State()));
        && (t.Failure? ==> r == Failure(t.error))
        && (t.Success? ==> r == Success(t.value.0) && response.State() == t.value.1)
    {
      var reply := fetch(BuildUrl(test, QueryPath, Some(parameters.entries)));
      r := FileAndProcess(QueryTransaction, response, parameters, reply);
    }

    /** `commit(action, parameters)`: it stores `operation` into the very hash it is given. */
    method Commit(action: string, parameters: OrderedHash, fetch: string -> Reply) returns (r: Result<Response, Error>)
      requires parameters.Valid()
      modifies parameters
      ensures parameters.Valid()
      ensures parameters.entries == Store(old(parameters.entries), "operation", Str(action))
      ensures r == CommitOutcome(test, action, parameters.entries, fetch)
    {
      parameters.Put("operation", Str(action));
      var response := new ResponseHash();
      var signal: Result<Signal, Error>;
      if action == "REGISTER" {
        signal := CommitTransactionRegister(response, parameters, fetch);
      } else if action == "SALE" || action == "AUTH" || action == "CAPTURE" || action == "CREDIT" || action == "ANNUL" {
        signal := CommitTransactionProcess(action, response, parameters, fetch);
      } else if action == "QUERY" {
        signal := CommitTransactionQuery(response, parameters, fetch);
      } else {
        return Failure(UnsupportedAction);
      }
      // `catch(:exception)`: a thrown signal ends the transaction but not the commit
      if signal.Failure? {
        return Failure(signal.error);
      }
      r := Success(Response(response.success, response.message, response.authorization, response.terminalUrl,
                            test, response.slots));
    }

    // -- the seven operations

    /** `register(money, options)`; the generated transaction id and `currency(money)` are inputs. */
    method Register(money: Option<int>, options: OrderedHash, generatedId: string, moneyCurrency: string,
                    fetch: string -> Reply)
      returns (r: Result<Response, Error>)
      requires options.Valid()
      ensures !options.Has("order_id") ==> r == Failure(MissingParameter("order_id"))
      ensures options.Has("order_id") ==>
        r == CommitOutcome(test, "REGISTER",
               RegisterRequest(login, password, generatedId, options.entries, money, moneyCurrency), fetch)
    {
      if !options.Has("order_id") {
        return Failure(MissingParameter("order_id"));
      }
      var post := new OrderedHash();
      AddCredentials(post);
      AddNewTransaction(post, generatedId);
      AddTerminal(post, options);
      AddOrder(post, money, options, moneyCurrency);
      r := Commit("REGISTER", post, fetch);
    }

    /** The shape shared by purchase, authorize, void and query. */
    method CommitExisting(action: string, options: OrderedHash, fetch: string -> Reply)
      returns (r: Result<Response, Error>)
      requires options.Valid()
      ensures !options.Has("transaction_id") ==> r == Failure(MissingParameter("transaction_id"))
      ensures options.Has("transaction_id") ==>
        r == CommitOutcome(test, action, ExistingRequest(login, password, options.entries, None, action), fetch)
    {
      if !options.Has("transaction_id") {
        return Failure(MissingParameter("transaction_id"));
      }
      var post := new OrderedHash();
      AddCredentials(post);
      AddExistingTransaction(post, options);
      r := Commit(action, post, fetch);
    }

    /** `purchase(options)`. */
    method Purchase(options: OrderedHash, fetch: string -> Reply) returns (r: Result<Response, Error>)
      requires options.Valid()
      ensures !options.Has("transaction_id") ==> r == Failure(MissingParameter("transaction_id"))
      ensures options.Has("transaction_id") ==>
        r == CommitOutcome(test, "SALE", ExistingRequest(login, password, options.entries, None, "SALE"), fetch)
    {
      r := CommitExisting("SALE", options, fetch);
    }

    /** `authorize(options)`. */
    method Authorize(options: OrderedHash, fetch: string -> Reply) returns (r: Result<Response, Error>)
      requires options.Valid()
      ensures !options.Has("transaction_id") ==> r == Failure(MissingParameter("transaction_id"))
      ensures options.Has("transaction_id") ==>
        r == CommitOutcome(test, "AUTH", ExistingRequest(login, password, options.entries, None, "AUTH"), fetch)
    {
      r := CommitExisting("AUTH", options, fetch);
    }

    /** `capture(money, options)`: the money goes out as `transactionAmount` as it is. */
    method Capture(money: Value, options: OrderedHash, fetch: string -> Reply) returns (r: Result<Response, Error>)
      requires options.Valid()
      ensures !options.Has("transaction_id") ==> r == Failure(MissingParameter("transaction_id"))
      ensures options.Has("transaction_id") ==>
        r == CommitOutcome(test, "CAPTURE",
               ExistingRequest(login, password, options.entries, Some(money), "CAPTURE"), fetch)
    {
      if !options.Has("transaction_id") {
        return Failure(MissingParameter("transaction_id"));
      }
      var post := new OrderedHash();
      AddCredentials(post);
      AddExistingTransaction(post, options);
      AddTransactionAmount(post, money);
      r := Commit("CAPTURE", post, fetch);
    }

    /**
     * `credit(money, options)`: it builds a request with credentials and
     * amount but commits the caller's `options` instead, storing `operation`
     * into the caller's hash.
     */
    method Credit(money: Value, options: OrderedHash, fetch: string -> Reply) returns (r: Result<Response, Error>)
      requires options.Valid()
      modifies options
      ensures options.Valid()
      ensures !old(options.Has("transaction_id")) ==>
        r == Failure(MissingParameter("transaction_id")) && options.entries == old(options.entries)
      ensures old(options.Has("transaction_id")) ==>
        && options.entries == CreditRequest(old(options.entries))
        && r == CommitOutcome(test, "CREDIT", CreditRequest(old(options.entries)), fetch)
    {
      if !options.Has("transaction_id") {
        return Failure(MissingParameter("transaction_id"));
      }
      var post := new OrderedHash();
      AddCredentials(post);
      AddExistingTransaction(post, options);
      AddTransactionAmount(post, money);
      r := Commit("CREDIT", options, fetch);
    }

    /** `void(options)`. */
    method Void(options: OrderedHash, fetch: string -> Reply) returns (r: Result<Response, Error>)
      requires options.Valid()
      ensures !options.Has("transaction_id") ==> r == Failure(MissingParameter("transaction_id"))
      ensures options.Has("transaction_id") ==>
        r == CommitOutcome(test, "ANNUL", ExistingRequest(login, password, options.entries, None, "ANNUL"), fetch)
    {
      r := CommitExisting("ANNUL", options, fetch);
    }

    /** `query(options)`. */
    method Query(options: OrderedHash, fetch: string -> Reply) returns (r: Result<Response, Error>)
      requires options.Valid()
      ensures !options.Has("transaction_id") ==> r == Failure(MissingParameter("transaction_id"))
      ensures options.Has("transaction_id") ==>
        r == CommitOutcome(test, "QUERY", ExistingRequest(login, password, options.entries, None, "QUERY"), fetch)
    {
      r := CommitExisting("QUERY", options, fetch);
    }
  }
}
