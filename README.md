# Netaxept gateway adapter, modelled in Dafny

This project models ActiveMerchant's `NetaxeptGateway`, the adapter between a
merchant application and the BBS Netaxept payment service. It covers four things:

- **Request building.** Each of the seven operations (register, purchase,
  authorize, capture, credit, void and query) checks its one required option.
  It then fills an ordered parameter hash through the `add_*` helpers.
- **Routing.** `commit` stores the action verb as `operation` and picks one of
  three endpoints by that verb. It files the parsed reply under a per-action
  slot.
- **Reading the reply.** `extract_xml` and `parse` turn the reply's element tree
  into a hash. `process` and `was_successful?` classify it:
  - an exception short-cut;
  - otherwise the `TransactionId` authorization and the `ResponseCode` rule.
- **URLs.** `build_url` and `encode` build the query URL. `add_terminal_url`
  adds the hosted-terminal redirect for a registration.

Layout:

- **`wrappers.dfy`**: `Option` and `Result`.
- **`ruby_values.dfy`**: the Ruby values the adapter handles.
  - Option and parameter values, and the parsed-reply tree `Tree = Leaf(Option<string>) | Node(map)`.
  - Ruby truthiness and `||`, Hash and String `[]`, `to_s`, and integer-to-decimal.
  - The case-sensitive substring test behind `=~ /Exception|Error/`.
- **`ordered_hash.dfy`**: Ruby's insertion-ordered Hash.
  - As a value (`Store`, `Lookup`, `Pick`).
  - As the mutable `OrderedHash` class that the `add_*` helpers and `commit` write into.
- **`utf8.dfy`** and **`url_encoding.dfy`**: `CGI.escape`, and `encode` with its decoder.
  - Escaping is UTF-8 followed by percent-encoding (section 2.1 of RFC 3986).
  - The unreserved characters of section 2.3 are left as they are, and a space becomes `+`.
  - The query string round-trips.
- **`xml_tree.dfy`**: `extract_xml` (a loop that fills a hash, proved against `ExtractTree`) and `parse`.
- **`netaxept.dfy`**: the gateway.
  - Routing, classification, and the response hash as a class.
  - `commit` and the three `commit_transaction_*` methods, proved against the pure `Transact` and `CommitOutcome`.
  - The seven operations, proved against the request functions (`RegisterRequest`, `ExistingRequest`, `CreditRequest`).
  - The lemmas stating what a commit returns.
- **`scenarios.dfy`**: the unit-test fixtures as element trees, and what `commit` makes of each.

The transport is a parameter `fetch: string -> Reply`. A `Reply` is a
well-formed document (an element tree), an empty document, malformed XML, or an
unreachable host. A raised Ruby exception is a `Failure(Error)` value. The
`throw :exception` early exit of `process` is a returned `Signal`.

## Model

| member | source | states |
|---|---|---|
| XmlTree.ExtractXml | lib/active_merchant/billing/gateways/netaxept.rb:226-236 | the loop over child elements computes `ExtractTree`: one entry per child name, built in document order, and an element without children yields its raw text (nil when empty) |
| XmlTree.ChildMapKeys | lib/active_merchant/billing/gateways/netaxept.rb:228-231 | the hash's keys are exactly the names of the children |
| XmlTree.ChildMapLastWins | lib/active_merchant/billing/gateways/netaxept.rb:229-231 | of several children with one name, the last one's extraction is the value |
| XmlTree.Parse | lib/active_merchant/billing/gateways/netaxept.rb:221-224 | `parse` as written, through `extract_xml`, equals `ParseReply`: transport and XML failures propagate, and a missing root or a root without child elements raises `NoMethodError` |
| XmlTree.ParseDocumentShape | lib/active_merchant/billing/gateways/netaxept.rb:221-224 | a parse succeeds exactly when the root has child elements; the container is the root's name, the field keys are the child names, and each value is the last such child's extraction |
| Netaxept.DispatchKnown | lib/active_merchant/billing/gateways/netaxept.rb:149-158 | `commit` accepts exactly the seven verbs, and any other verb raises the unsupported-action error |
| Netaxept.RoutingTable | lib/active_merchant/billing/gateways/netaxept.rb:149-158 | REGISTER goes to Register.aspx, QUERY to Query.aspx, and SALE, AUTH, CAPTURE, CREDIT and ANNUL to Process.aspx |
| Netaxept.SlotTable | lib/active_merchant/billing/gateways/netaxept.rb:167-182 | the reply is filed under `setup`, under `query`, or under the downcased verb (`sale`, `auth`, `capture`, `credit`, `annul`) |
| Netaxept.OrdinaryContainer | lib/active_merchant/billing/gateways/netaxept.rb:186 | a root name without a capital E never matches `/Exception\|Error/` |
| Netaxept.SuccessRule | lib/active_merchant/billing/gateways/netaxept.rb:203-211 | `was_successful?` holds exactly when `ResponseCode` is absent or nil, or is the text `OK` |
| Netaxept.ExceptionVerdict | lib/active_merchant/billing/gateways/netaxept.rb:186-194 | in the exception branch `process` raises exactly when `Error` reads nil: it is absent, or it has neither child elements nor text. Otherwise it throws, with message `Error['Message']` and authorization `Error['Result']['TransactionId']`, or `"error"` when there is no `Result` |
| Netaxept.OrdinaryVerdict | lib/active_merchant/billing/gateways/netaxept.rb:195-211 | outside the exception branch `process` never raises; the authorization is the top-level `TransactionId` and success follows the `ResponseCode` rule |
| Netaxept.NetaxeptGateway.Process | lib/active_merchant/billing/gateways/netaxept.rb:185-201 | `process` on the response hash: on a raise it leaves the hash as it was; otherwise it writes what `Classify` decides and signals whether it threw |
| Netaxept.NetaxeptGateway.AddTerminalUrl | lib/active_merchant/billing/gateways/netaxept.rb:213-219 | sets only `terminal_url`, to the terminal URL for the request's `merchantId` and the response's authorization |
| Netaxept.NetaxeptGateway.CommitTransactionRegister | lib/active_merchant/billing/gateways/netaxept.rb:167-171 | GET Register.aspx, file the reply under `setup`, run `process`, and add the terminal URL only when nothing was thrown; equals `Transact` |
| Netaxept.NetaxeptGateway.CommitTransactionProcess | lib/active_merchant/billing/gateways/netaxept.rb:173-177 | GET Process.aspx, file the reply under the downcased verb, and run `process`; equals `Transact` |
| Netaxept.NetaxeptGateway.CommitTransactionQuery | lib/active_merchant/billing/gateways/netaxept.rb:179-182 | GET Query.aspx, file the reply under `query`, and run `process`; equals `Transact` |
| Netaxept.NetaxeptGateway.Commit | lib/active_merchant/billing/gateways/netaxept.rb:142-165 | stores `operation` into the hash it is given, whatever the verb, and returns `CommitOutcome` |
| Netaxept.CommitRouting | lib/active_merchant/billing/gateways/netaxept.rb:142-182 | an unknown verb raises; otherwise the parameters are sent to the verb's endpoint, and the result holds the reply under the verb's slot and carries the test flag. A commit raises exactly when the fetch or the parse fails, or `process` finds an `Error` that reads nil (absent, or with neither child elements nor text) |
| Netaxept.ExceptionOutcome | lib/active_merchant/billing/gateways/netaxept.rb:145-170 | an exception reply never counts as a success and gets no terminal URL; it carries the exception branch's message and authorization |
| Netaxept.OrdinaryOutcome | lib/active_merchant/billing/gateways/netaxept.rb:163-171 | any other reply: authorization is `TransactionId`, success follows `ResponseCode` (both directions), the message is nil, and there is a terminal URL exactly for REGISTER, built from `merchantId` and the authorization |
| Netaxept.AuthorizationSource | lib/active_merchant/billing/gateways/netaxept.rb:186-196 | a returned authorization is always the top-level `TransactionId`, `Error['Result']['TransactionId']`, or the `"error"` sentinel |
| Netaxept.BuildUrlParts | lib/active_merchant/billing/gateways/netaxept.rb:250-258 | a URL is the test or live base plus the path. When parameters are given it continues with `?` (even when there are none) and a query that decodes to the parameters' string pairs in order |
| Netaxept.TerminalUrlQuery | lib/active_merchant/billing/gateways/netaxept.rb:213-219 | the terminal URL is the base, `terminal/default.aspx?`, and a query decoding to `MerchantID` then `TransactionID`, with the values' `to_s` |
| Netaxept.NetaxeptGateway.New | lib/active_merchant/billing/gateways/netaxept.rb:25-29 | `:login` is checked first and then `:password`, raising the missing-parameter error for the first one absent; the gateway keeps both, and `test?` is the `:test` option or the global test mode |
| Netaxept.NetaxeptGateway.AddCredentials | lib/active_merchant/billing/gateways/netaxept.rb:110-113 | stores `merchantId` as the login and `token` as the password |
| Netaxept.NetaxeptGateway.AddOrder | lib/active_merchant/billing/gateways/netaxept.rb:115-119 | stores `orderNumber`, then `currencyCode` (the option, or else the money's currency), then `amount` |
| Netaxept.NetaxeptGateway.AddTerminal | lib/active_merchant/billing/gateways/netaxept.rb:121-126 | stores `serviceType` B, `orderDescription`, `language` (default nb_NO) and `redirectUrl` (default http://example.com) |
| Netaxept.NetaxeptGateway.AddTransactionAmount | lib/active_merchant/billing/gateways/netaxept.rb:128-130 | stores the money as given under `transactionAmount` |
| Netaxept.NetaxeptGateway.AddNewTransaction | lib/active_merchant/billing/gateways/netaxept.rb:132-134 | stores the generated id under `transactionId` |
| Netaxept.NetaxeptGateway.AddExistingTransaction | lib/active_merchant/billing/gateways/netaxept.rb:136-138 | stores the option `transaction_id` under `transactionId` |
| Netaxept.NetaxeptGateway.Register | lib/active_merchant/billing/gateways/netaxept.rb:33-42 | raises for a missing `:order_id` before anything is sent; otherwise it commits `RegisterRequest` |
| Netaxept.NetaxeptGateway.Purchase | lib/active_merchant/billing/gateways/netaxept.rb:44-51 | raises for a missing `:transaction_id`; otherwise it commits SALE with credentials and the transaction id |
| Netaxept.NetaxeptGateway.Authorize | lib/active_merchant/billing/gateways/netaxept.rb:53-60 | the same for AUTH |
| Netaxept.NetaxeptGateway.Capture | lib/active_merchant/billing/gateways/netaxept.rb:62-70 | the same for CAPTURE, with `transactionAmount` as well |
| Netaxept.NetaxeptGateway.Credit | lib/active_merchant/billing/gateways/netaxept.rb:72-80 | raises for a missing `:transaction_id` and leaves the options untouched; otherwise it commits the caller's own options with `operation` stored into them |
| Netaxept.NetaxeptGateway.Void | lib/active_merchant/billing/gateways/netaxept.rb:82-89 | the same as purchase, for ANNUL |
| Netaxept.NetaxeptGateway.Query | lib/active_merchant/billing/gateways/netaxept.rb:91-98 | the same as purchase, for QUERY |
| Netaxept.RegisterRequestEntries | lib/active_merchant/billing/gateways/netaxept.rb:33-41 | the REGISTER request holds exactly eleven entries, in order: credentials, transaction id, the terminal's four, the order's three, and `operation` |
| Netaxept.RegisterDefaults | lib/active_merchant/billing/gateways/netaxept.rb:115-126 | the fallbacks `nb_NO`, `http://example.com` and the money's currency apply exactly when the option is not truthy; the amount string reads back as the amount |
| Netaxept.ExistingRequestEntries | lib/active_merchant/billing/gateways/netaxept.rb:44-98 | the other gateway-built requests are credentials, then the transaction id, then the amount (CAPTURE only), then `operation` last |
| Netaxept.CreditRequestIsCallerOptions | lib/active_merchant/billing/gateways/netaxept.rb:72-80 | apart from `operation` = CREDIT, the credit request reads exactly as the caller's options, with no credentials or amount added; `operation` goes last unless the options already had it |
| OrderedHashes.OrderedHash.Put | lib/active_merchant/billing/gateways/netaxept.rb:143 | `hash[key] = value` keeps keys distinct, overwrites an existing key where it stands, and appends a new one; other keys read as before |
| OrderedHashes.LookupStore | lib/active_merchant/billing/gateways/netaxept.rb:110-138 | after a store the key reads the stored value and every other key reads as before |
| OrderedHashes.KeysStore | lib/active_merchant/billing/gateways/netaxept.rb:110-138 | a stored key keeps its position if present, else it goes last |
| OrderedHashes.StoreExisting | lib/active_merchant/billing/gateways/netaxept.rb:143 | storing an existing key replaces that entry in place |
| OrderedHashes.LookupAbsent | lib/active_merchant/billing/gateways/netaxept.rb:116-137 | an absent option reads as nil |
| OrderedHashes.LookupPick | lib/active_merchant/billing/gateways/netaxept.rb:246-248 | `pick` keeps a key exactly when it was asked for and its value is truthy, with that value |
| OrderedHashes.PickKeys | lib/active_merchant/billing/gateways/netaxept.rb:246-248 | every key of a pick was asked for, and appears once |
| UrlEncoding.EncodeRoundTrip | lib/active_merchant/billing/gateways/netaxept.rb:260-262 | the query string decodes back to the hash's keys and `to_s` values, in hash order |
| UrlEncoding.EncodeEmpty | lib/active_merchant/billing/gateways/netaxept.rb:260-262 | the encoding is empty exactly for an empty hash |
| UrlEncoding.EncodeFirst | lib/active_merchant/billing/gateways/netaxept.rb:261 | the first entry leads the encoding as `escape(k)=escape(v.to_s)`, and a nil value encodes as `escape(k)=` |
| UrlEncoding.QueryRoundTrip | lib/active_merchant/billing/gateways/netaxept.rb:261 | pairs joined with `&` as `k=v` split and decode back to themselves |
| UrlEncoding.UnescapeEscape | lib/active_merchant/billing/gateways/netaxept.rb:261 | unescaping an escaped string gives it back |
| UrlEncoding.EscapeSafe | lib/active_merchant/billing/gateways/netaxept.rb:261 | escaped text holds only unreserved characters, `+` and `%`, and never `=` or `&` |
| UrlEncoding.EscapeUnreserved | lib/active_merchant/billing/gateways/netaxept.rb:261 | a string of unreserved characters escapes to itself |
| Utf8.DecodeEncode | lib/active_merchant/billing/gateways/netaxept.rb:261 | the UTF-8 bytes of a string decode back to it |
| RubyValues.ContainsIffOccurs | lib/active_merchant/billing/gateways/netaxept.rb:186 | the substring test holds exactly when the pattern occurs at some index |
| RubyValues.Index | lib/active_merchant/billing/gateways/netaxept.rb:187-190 | `[]` raises exactly on nil; on a hash it answers the key's value, or nil for an absent key; on a String it is non-nil exactly when the key occurs at some index of the string, and then it is the key itself |
| RubyValues.DecimalRoundTrip | lib/active_merchant/billing/gateways/netaxept.rb:118 | an integer's decimal string reads back as that integer |
| RubyValues.ToS | lib/active_merchant/billing/gateways/netaxept.rb:261 | `to_s` leaves a string as it is, turns nil into the empty string, and writes an integer in decimal that reads back as it |
| Scenarios.SuccessfulRegister | test/unit/gateways/netaxept_test.rb:21-29 | the register fixture succeeds in test mode, with the fixture's transaction id as authorization and a terminal URL |
| Scenarios.RegisterTerminalNamesLogin | test/unit/gateways/netaxept_test.rb:21-29 | a registration with login `login` gets a terminal URL naming `login` and the fixture's id |
| Scenarios.SuccessfulAuth | test/unit/gateways/netaxept_test.rb:32-39 | the AUTH fixture, which also carries an `AuthorizationId`, is a test-mode success whose authorization is the `TransactionId`, with no terminal URL |
| Scenarios.SuccessfulProcess | test/unit/gateways/netaxept_test.rb:49-108 | the capture, credit and void fixtures (purchase reuses capture's) with ResponseCode OK are test-mode successes carrying the fixture's transaction id, with no terminal URL |
| Scenarios.FailedCredit | test/unit/gateways/netaxept_test.rb:92-99 | the ERROR credit reply is a failure that keeps the transaction id |
| Scenarios.ErrorResponse | test/unit/gateways/netaxept_test.rb:41-47 | the exception fixture (lines 187-194) gives a test-mode failure whatever the verb (`test_failed_auth` and its siblings), with message `Authentication failed (TEST)` and authorization `error` |
| Scenarios.EmptyResponseCode | lib/active_merchant/billing/gateways/netaxept.rb:203-207 | an empty `<ResponseCode/>` reads as nil and so counts as a success |

## Left out

- `ssl_get`, the HTTPS transport, is a function parameter (`fetch`). Timeouts and other network errors collapse into one `TransportError`.
- REXML lexing and namespaces are not modelled. The model starts from an element tree with local names and each element's first text node, untrimmed and with entity references expanded.
- `generate_transaction_id` is not modelled: it hashes the options, the clock and a random number with MD5. The generated id is an input of `Register`.
- The global `Base.gateway_mode` is the boolean input of `NetaxeptGateway.New`.
- The superclass helpers are not modelled.
  - `requires!` is a missing-parameter failure.
  - `amount(money)` is the integer's decimal string, or nil for no money. Money objects, and the error `amount` raises on other types, are not modelled.
  - `currency(money)` is the input `moneyCurrency`.
- `Billing::Response` is reduced to a datatype: success, message, authorization, terminal URL, test flag and the filed replies. The `:success`, `:message` and the other bookkeeping keys in the raw hash are not repeated there. `error_detail` is never set.
- The metadata (supported countries, card types, homepage, display name, money format, default currency) is static data with no behaviour.
- Options and parameters use string keys. Ruby symbols (`:merchantId`) are modelled by their names, and every key of interest is a symbol, so no two keys collide.
- `Netaxept.NetaxeptGateway.New`: the source keeps the caller's options hash by reference and reads `login`, `password` and `:test` on each use. The model reads them once, so later changes to that hash are not seen.
- `RubyValues.ToS`: a hash value (a reply subtree holding child elements) is rendered as the empty string. Ruby's own `Hash#to_s` depends on the Ruby version. So any Hash-valued parameter encodes as `""` where Ruby would write its `Hash#to_s`. Such a value can come from the caller's options, which `credit` sends as they are and `add_terminal` and `add_order` copy from; from the login, the password or capture's money; or from a `TransactionId` with child elements.
- `UrlEncoding.Escape` is percent-encoding of the UTF-8 bytes (section 2.1 of RFC 3986). It keeps only the unreserved characters of section 2.3 and writes a space as `+`. It does not claim the exact character set of every Ruby's `CGI.escape`: older versions escape `~` as `%7E`, which the model leaves as it is.
- Exceptions are `Error` values. No message text is modelled beyond the missing parameter's name and the name of the method missing on nil or a String.
