/**
 * The gateway's unit-test fixtures as XML element trees, and what `commit`
 * makes of each in test mode. Element text that is never read (the
 * whitespace inside elements that have child elements) is left as None.
 */
module Scenarios {
  import opened Wrappers
  import opened RubyValues
  import opened OrderedHashes
  import opened XmlTree
  import opened Netaxept

  const FixtureTransactionId := "b127f98b77f741fca6bb49981ee6e846"

  function Text(name: string, text: string): Element {
    Element(name, [], Some(text))
  }

  const RegisterResponseXml :=
    Element("RegisterResponse", [Text("TransactionId", FixtureTransactionId)], None)

  /** The reply to a process call, as the CAPTURE, CREDIT and ANNUL fixtures have it (purchase reuses CAPTURE's). */
  function ProcessResponseXml(operation: string, responseCode: string): Element {
    Element("ProcessResponse",
      [ Text("Operation", operation),
        Text("ResponseCode", responseCode),
        Text("TransactionId", FixtureTransactionId),
        Text("ExecutionTime", "2009-12-16T11:40:57.601875+01:00"),
        Text("MerchantId", "9999997") ],
      None)
  }

  /** The AUTH fixture: it also carries an `AuthorizationId`, and its own execution time. */
  const AuthResponseXml :=
    Element("ProcessResponse",
      [ Text("Operation", "AUTH"),
        Text("ResponseCode", "OK"),
        Text("AuthorizationId", "064392"),
        Text("TransactionId", FixtureTransactionId),
        Text("ExecutionTime", "2009-12-16T11:17:54.633125+01:00"),
        Text("MerchantId", "9999997") ],
      None)

  const ErrorResponseXml :=
    Element("Exception",
      [Element("Error", [Text("Message", "Authentication failed (TEST)")], None)],
      None)

  /** A stand-in for `ssl_get` that answers every URL with the same document. */
  function Always(root: Element): string -> Reply {
    _ => Document(root)
  }

  /** Whichever request is sent, the stand-in's reply is its document. */
  lemma AlwaysReplies(root: Element, test: bool, action: string, params: Entries)
    requires KnownAction(action)
    ensures Dispatch(action).Success?
    ensures ReplyFor(test, action, params, Always(root)) == ParseReply(Document(root))
  {
    DispatchKnown(action);
  }

  lemma ParsedProcessResponse(operation: string, responseCode: string)
    ensures ParseReply(Document(ProcessResponseXml(operation, responseCode))) ==
      Success(Parsed("ProcessResponse", map[
        "Operation" := Leaf(Some(operation)),
        "ResponseCode" := Leaf(Some(responseCode)),
        "TransactionId" := Leaf(Some(FixtureTransactionId)),
        "ExecutionTime" := Leaf(Some("2009-12-16T11:40:57.601875+01:00")),
        "MerchantId" := Leaf(Some("9999997"))]))
  {
    var e := ProcessResponseXml(operation, responseCode);
    assert ChildMap(e, 1) == map["Operation" := Leaf(Some(operation))];
    assert ChildMap(e, 2) == ChildMap(e, 1)["ResponseCode" := Leaf(Some(responseCode))];
    assert ChildMap(e, 3) == ChildMap(e, 2)["TransactionId" := Leaf(Some(FixtureTransactionId))];
    assert ChildMap(e, 4) == ChildMap(e, 3)["ExecutionTime" := Leaf(Some("2009-12-16T11:40:57.601875+01:00"))];
    assert ChildMap(e, 5) == ChildMap(e, 4)["MerchantId" := Leaf(Some("9999997"))];
  }

  lemma ParsedRegisterResponse()
    ensures ParseReply(Document(RegisterResponseXml)) ==
      Success(Parsed("RegisterResponse", map["TransactionId" := Leaf(Some(FixtureTransactionId))]))
  {
    assert ChildMap(RegisterResponseXml, 1) == map["TransactionId" := Leaf(Some(FixtureTransactionId))];
  }

  /** `test_successful_register`: a success whose authorization is the fixture's id, with a terminal URL. */
  lemma SuccessfulRegister(params: Entries)
    ensures var r := CommitOutcome(true, "REGISTER", params, Always(RegisterResponseXml));
      && r.Success? && r.value.success && r.value.test
      && r.value.authorization == Leaf(Some(FixtureTransactionId))
      && r.value.terminalUrl == Some(TerminalUrl(true, Lookup(params, "merchantId"), Leaf(Some(FixtureTransactionId))))
  {
    ParsedRegisterResponse();
    AlwaysReplies(RegisterResponseXml, true, "REGISTER", params);
    OrdinaryContainer("RegisterResponse");
    OrdinaryOutcome(true, "REGISTER", params, Always(RegisterResponseXml));
  }

  /**
   * `test_successful_capture`, `_purchase`, `_credit` and `_void`: a process
   * reply with ResponseCode OK is a success carrying the fixture's
   * transaction id and no terminal URL.
   */
  lemma SuccessfulProcess(action: string, operation: string, params: Entries)
    requires action in {"SALE", "AUTH", "CAPTURE", "CREDIT", "ANNUL"}
    ensures var r := CommitOutcome(true, action, params, Always(ProcessResponseXml(operation, "OK")));
      && r.Success? && r.value.success && r.value.test
      && r.value.authorization == Leaf(Some(FixtureTransactionId))
      && r.value.terminalUrl.None?
  {
    ParsedProcessResponse(operation, "OK");
    AlwaysReplies(ProcessResponseXml(operation, "OK"), true, action, params);
    OrdinaryContainer("ProcessResponse");
    OrdinaryOutcome(true, action, params, Always(ProcessResponseXml(operation, "OK")));
  }

  lemma ParsedAuthResponse()
    ensures ParseReply(Document(AuthResponseXml)) ==
      Success(Parsed("ProcessResponse", map[
        "Operation" := Leaf(Some("AUTH")),
        "ResponseCode" := Leaf(Some("OK")),
        "AuthorizationId" := Leaf(Some("064392")),
        "TransactionId" := Leaf(Some(FixtureTransactionId)),
        "ExecutionTime" := Leaf(Some("2009-12-16T11:17:54.633125+01:00")),
        "MerchantId" := Leaf(Some("9999997"))]))
  {
    var e := AuthResponseXml;
    assert ChildMap(e, 1) == map["Operation" := Leaf(Some("AUTH"))];
    assert ChildMap(e, 2) == ChildMap(e, 1)["ResponseCode" := Leaf(Some("OK"))];
    assert ChildMap(e, 3) == ChildMap(e, 2)["AuthorizationId" := Leaf(Some("064392"))];
    assert ChildMap(e, 4) == ChildMap(e, 3)["TransactionId" := Leaf(Some(FixtureTransactionId))];
    assert ChildMap(e, 5) == ChildMap(e, 4)["ExecutionTime" := Leaf(Some("2009-12-16T11:17:54.633125+01:00"))];
    assert ChildMap(e, 6) == ChildMap(e, 5)["MerchantId" := Leaf(Some("9999997"))];
  }

  /** `test_successful_auth`: the AUTH reply is a success whose authorization is the transaction id, not the `AuthorizationId`. */
  lemma SuccessfulAuth(params: Entries)
    ensures var r := CommitOutcome(true, "AUTH", params, Always(AuthResponseXml));
      && r.Success? && r.value.success && r.value.test
      && r.value.authorization == Leaf(Some(FixtureTransactionId))
      && r.value.terminalUrl.None?
  {
    ParsedAuthResponse();
    AlwaysReplies(AuthResponseXml, true, "AUTH", params);
    OrdinaryContainer("ProcessResponse");
    OrdinaryOutcome(true, "AUTH", params, Always(AuthResponseXml));
  }

  /** `test_failed_credit`: ResponseCode ERROR is a failure that still carries the transaction id. */
  lemma FailedCredit(params: Entries)
    ensures var r := CommitOutcome(true, "CREDIT", params, Always(ProcessResponseXml("CREDIT", "ERROR")));
      && r.Success? && !r.value.success && r.value.test
      && r.value.authorization == Leaf(Some(FixtureTransactionId))
  {
    ParsedProcessResponse("CREDIT", "ERROR");
    AlwaysReplies(ProcessResponseXml("CREDIT", "ERROR"), true, "CREDIT", params);
    OrdinaryContainer("ProcessResponse");
    OrdinaryOutcome(true, "CREDIT", params, Always(ProcessResponseXml("CREDIT", "ERROR")));
  }

  /** An empty `<ResponseCode/>` has no text, reads as nil, and so counts as a success. */
  lemma EmptyResponseCode(action: string, params: Entries)
    requires action in {"SALE", "AUTH", "CAPTURE", "CREDIT", "ANNUL"}
    ensures var root := Element("ProcessResponse",
        [Element("ResponseCode", [], None), Text("TransactionId", FixtureTransactionId)], None);
      var r := CommitOutcome(true, action, params, Always(root));
      r.Success? && r.value.success && r.value.authorization == Leaf(Some(FixtureTransactionId))
  {
    var root := Element("ProcessResponse",
      [Element("ResponseCode", [], None), Text("TransactionId", FixtureTransactionId)], None);
    var p := Parsed("ProcessResponse", map["ResponseCode" := Nil, "TransactionId" := Leaf(Some(FixtureTransactionId))]);
    assert ChildMap(root, 1) == map["ResponseCode" := Nil];
    assert ChildMap(root, 2) == p.fields;
    AlwaysReplies(root, true, action, params);
    OrdinaryContainer("ProcessResponse");
    OrdinaryOutcome(true, action, params, Always(root));
  }

  /**
   * `test_failed_auth`, `_capture`, `_purchase` and `_void`: the exception
   * reply is a failure with the exception's message and the sentinel
   * authorization, whatever the action.
   */
  lemma ErrorResponse(action: string, params: Entries)
    requires KnownAction(action)
    ensures var r := CommitOutcome(true, action, params, Always(ErrorResponseXml));
      && r.Success? && !r.value.success && r.value.test
      && r.value.message == Leaf(Some("Authentication failed (TEST)"))
      && r.value.authorization == Leaf(Some("error"))
      && r.value.terminalUrl.None?
  {
    var p := Parsed("Exception", map["Error" := Node(map["Message" := Leaf(Some("Authentication failed (TEST)"))])]);
    assert ChildMap(ErrorResponseXml.children[0], 1) == map["Message" := Leaf(Some("Authentication failed (TEST)"))];
    assert ChildMap(ErrorResponseXml, 1) == p.fields;
    assert ParseReply(Document(ErrorResponseXml)) == Success(p);
    ContainsIffOccurs("Exception", "Exception");
    assert OccursAt("Exception", "Exception", 0);
    DispatchKnown(action);
    ExceptionVerdict(p);
    ExceptionOutcome(true, action, params, Always(ErrorResponseXml));
  }

  /** `test_successful_register` through the gateway's own request: the terminal URL names the login. */
  lemma RegisterTerminalNamesLogin(generatedId: string, options: Entries, money: Option<int>, moneyCurrency: string)
    ensures var req := RegisterRequest(Str("login"), Str("password"), generatedId, options, money, moneyCurrency);
      var r := CommitOutcome(true, "REGISTER", req, Always(RegisterResponseXml));
      r.Success? && r.value.terminalUrl == Some(TerminalUrl(true, Str("login"), Leaf(Some(FixtureTransactionId))))
  {
    var req := RegisterRequest(Str("login"), Str("password"), generatedId, options, money, moneyCurrency);
    RegisterDefaults(Str("login"), Str("password"), generatedId, options, money, moneyCurrency);
    LookupFirst(req, 0);
    SuccessfulRegister(req);
  }
}
