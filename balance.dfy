/**
 * The balance action of the balance plugin: preparing the extraction prompt
 * and validating the extracted chain (`buildGetBalanceDetails`), running the
 * query against the wallet provider (`BalanceAction.getBalance`), the
 * action's `validate` gate, and the handler that turns a query's outcome into
 * a boolean and a callback payload.
 *
 * The extraction engine (template composition plus the language model) is an
 * input: the composed context string, and a function from the final prompt to
 * the record the model returns.
 */
module Balance {
  import opened Wrappers
  import opened JsText
  import opened Wallet

  /** The token `getBalance` fills in when the query names none. */
  const DefaultToken: string := "0x"
  /** The prefix `validate` demands of the private key. */
  const KeyPrefix: string := "0x"
  /** The token in the prompt that the list of configured chains replaces. */
  const ChainsPlaceholder: string := "SUPPORTED_CHAINS"
  /** What `getBalance` puts before the message of a failed balance fetch. */
  const QueryFailedPrefix: string := "Query Balance failed: "

  /** The record the extraction engine returns; `token` is None for null or undefined. */
  datatype Extraction = Extraction(chain: string, address: string, token: Option<string>)

  /** One per-token balance of a balance result. */
  datatype TokenBalance = TokenBalance(token: string, amount: string)

  /** The result of a successful balance query. */
  datatype WalletBalance = WalletBalance(chain: string, address: string, amount: string, tokens: seq<TokenBalance>)

  // ---------------------------------------------------------------------------
  // Prompt preparation and the chain-validation gate
  // ---------------------------------------------------------------------------

  /** A chain name wrapped in double quotes. */
  function Quote(name: string): string
  {
    "\"" + name + "\""
  }

  /** Strips one pair of surrounding double quotes, if there is one. */
  function Unquote(q: string): string
  {
    if |q| >= 2 && q[0] == '"' && q[|q| - 1] == '"' then q[1..|q| - 1] else q
  }

  /** Every name quoted, in order. */
  function QuoteAll(names: seq<string>): (quoted: seq<string>)
    ensures |quoted| == |names|
    ensures forall i :: 0 <= i < |names| ==> quoted[i] == Quote(names[i])
  {
    seq(|names|, i requires 0 <= i < |names| => Quote(names[i]))
  }

  /** The configured chain names as the prompt shows them: `"a"|"b"|...`, in key order. */
  function RenderChainList(names: seq<string>): string
  {
    Join(QuoteAll(names), "|")
  }

  /** Reads a rendered chain list back into the names it lists. */
  function ParseChainList(rendered: string): (names: seq<string>)
  {
    if rendered == "" then []
    else
      var pieces := Split(rendered, '|');
      seq(|pieces|, i requires 0 <= i < |pieces| => Unquote(pieces[i]))
  }

  /** The rendered list names exactly the configured chains, in key order, whenever no name contains `|`. */
  lemma RenderChainListRoundTrip(names: seq<string>)
    requires forall i :: 0 <= i < |names| ==> '|' !in names[i]
    ensures ParseChainList(RenderChainList(names)) == names
  {
    if names != [] {
      var quoted := QuoteAll(names);
      forall i | 0 <= i < |quoted|
        ensures '|' !in quoted[i]
      {
        assert quoted[i] == ['"'] + names[i] + ['"'];
      }
      assert quoted[0] <= Join(quoted, "|") && |quoted[0]| >= 2;
      SplitJoin(quoted, '|');
      var parsed := ParseChainList(RenderChainList(names));
      assert |parsed| == |names|;
      forall i | 0 <= i < |names|
        ensures parsed[i] == names[i]
      {
        assert Unquote(Quote(names[i])) == names[i];
      }
    }
  }

  /** For a well-formed chain table, the prompt's list offers exactly the configured chains. */
  lemma PromptOffersConfiguredChains(chains: ChainTable)
    requires chains.Valid()
    requires forall i :: 0 <= i < |chains.keys| ==> '|' !in chains.keys[i]
    ensures forall n :: n in ParseChainList(RenderChainList(chains.keys)) <==> n in chains.entries
  {
    RenderChainListRoundTrip(chains.keys);
  }

  /** The rendered list contains a `$` only if some configured name does. */
  lemma RenderChainListDollarFree(names: seq<string>)
    requires forall i :: 0 <= i < |names| ==> '$' !in names[i]
    ensures '$' !in RenderChainList(names)
  {
    var quoted := QuoteAll(names);
    forall i | 0 <= i < |quoted|
      ensures '$' !in quoted[i]
    {
      assert quoted[i] == ['"'] + names[i] + ['"'];
    }
    JoinAvoids(quoted, "|", '$');
  }

  /** The prompt given to the extraction engine: the first placeholder replaced by the rendered chain list. */
  function PromptWithChains(context: string, chains: ChainTable): string
  {
    ReplaceFirst(context, ChainsPlaceholder, RenderChainList(chains.keys))
  }

  /**
   * When the context holds the placeholder, first at `i`, and no configured
   * name contains `$`, the prompt is the context with exactly that occurrence
   * replaced by the rendered list. (A context without the placeholder is
   * passed on unchanged: see ReplaceFirst.)
   */
  lemma PromptWithChainsSplices(context: string, chains: ChainTable, i: nat)
    requires forall k :: 0 <= k < |chains.keys| ==> '$' !in chains.keys[k]
    requires OccursAt(context, ChainsPlaceholder, i)
    requires forall j: nat :: j < i ==> !OccursAt(context, ChainsPlaceholder, j)
    ensures PromptWithChains(context, chains)
         == context[..i] + RenderChainList(chains.keys) + context[i + |ChainsPlaceholder|..]
  {
    RenderChainListDollarFree(chains.keys);
    ReplaceFirstLiteral(context, ChainsPlaceholder, RenderChainList(chains.keys), i);
  }

  /** The words of the unknown-chain error that come before the list of configured names. */
  function UnknownChainLead(chain: string): string
  {
    "The chain " + chain + " not configured yet. Add the chain or choose one from configured: "
  }

  /** The error thrown for an extracted chain that is not configured: its name, then every configured name joined by `,`. */
  function UnknownChainMessage(chain: string, names: seq<string>): string
  {
    UnknownChainLead(chain) + Join(names, ",")
  }

  /**
   * The unknown-chain error names the requested chain and lists the
   * configured names in key order: the text after the lead, split at `,`,
   * gives them back whenever there is at least one and none contains `,`.
   */
  lemma UnknownChainMessageListsNames(chain: string, names: seq<string>)
    requires names != []
    requires forall i :: 0 <= i < |names| ==> ',' !in names[i]
    ensures UnknownChainLead(chain) <= UnknownChainMessage(chain, names)
    ensures Split(UnknownChainMessage(chain, names)[|UnknownChainLead(chain)|..], ',') == names
  {
    var lead := UnknownChainLead(chain);
    assert UnknownChainMessage(chain, names)[|lead|..] == Join(names, ",");
    SplitJoin(names, ',');
  }

  /**
   * The validation gate on the extracted record: a configured chain lets the
   * record through exactly as it came (no token defaulting, no address
   * check); any other chain is rejected with the unknown-chain error.
   */
  function CheckChain(details: Extraction, chains: ChainTable): (r: Result<Extraction>)
    ensures r.Ok? <==> details.chain in chains.entries
    ensures r.Ok? ==> r.value == details
    ensures r.Err? ==> r.message == UnknownChainMessage(details.chain, chains.keys)
  {
    if details.chain in chains.entries then Ok(details)
    else Err(UnknownChainMessage(details.chain, chains.keys))
  }

  /**
   * `buildGetBalanceDetails`: splices the chain list into the context, asks
   * the extraction engine, and passes its record through the gate.
   */
  function BuildGetBalanceDetails(context: string, chains: ChainTable, engine: string -> Extraction): (r: Result<Extraction>)
    ensures r.Ok? ==> r.value == engine(PromptWithChains(context, chains)) && r.value.chain in chains.entries
    ensures r.Err? <==> engine(PromptWithChains(context, chains)).chain !in chains.entries
  {
    CheckChain(engine(PromptWithChains(context, chains)), chains)
  }

  // ---------------------------------------------------------------------------
  // Running the query
  // ---------------------------------------------------------------------------

  /** JavaScript truthiness of the optional token: null, undefined and "" are falsy. */
  predicate Falsy(token: Option<string>)
  {
    token.None? || token.value == ""
  }

  /** The token after `getBalance`'s defaulting: never falsy, and a truthy token is kept as it was. */
  function DefaultedToken(token: Option<string>): (t: Option<string>)
    ensures !Falsy(t)
    ensures !Falsy(token) ==> t == token
    ensures Falsy(token) ==> t == Some(DefaultToken)
  {
    if Falsy(token) then Some(DefaultToken) else token
  }

  /**
   * What `getBalance` yields given what `switchChain` threw (if anything)
   * and what the fetch yielded: a switch failure propagates with its own
   * message; a fetch failure is re-thrown with the query-failed prefix; a
   * fetched amount becomes a result for the queried chain and address with
   * no token balances.
   */
  function QueryOutcome(switchThrown: Option<string>, fetched: Result<string>, chain: string, address: string)
    : (r: Result<WalletBalance>)
    ensures r.Ok? <==> switchThrown.None? && fetched.Ok?
    ensures r.Ok? ==> r.value == WalletBalance(chain, address, fetched.value, [])
    ensures switchThrown.Some? ==> r == Err(switchThrown.value)
    ensures switchThrown.None? && fetched.Err? ==> r == Err(QueryFailedPrefix + fetched.message)
  {
    match switchThrown
    case Some(thrown) => Err(thrown)
    case None =>
      match fetched
      case Ok(amount) => Ok(WalletBalance(chain, address, amount, []))
      case Err(message) => Err(QueryFailedPrefix + message)
  }

  /** The provider calls `getBalance` makes: the switch, then the fetch only if the switch did not throw. */
  function QueryCalls(switchThrown: Option<string>, chain: string, address: string): seq<WalletCall>
  {
    [SwitchCall(chain)] + if switchThrown.None? then [FetchCall(chain, address)] else []
  }

  /** The caller's parameter object, which `getBalance` updates in place. */
  class GetBalanceParams {
    var chain: string
    var address: string
    var token: Option<string>

    constructor (details: Extraction)
      ensures Value() == details
    {
      chain := details.chain;
      address := details.address;
      token := details.token;
    }

    /** The record the object currently holds. */
    function Value(): Extraction
      reads this
    {
      Extraction(chain, address, token)
    }
  }

  class BalanceAction {
    const walletProvider: WalletProvider

    constructor (walletProvider: WalletProvider)
      ensures this.walletProvider == walletProvider
    {
      this.walletProvider := walletProvider;
    }

    /**
     * `getBalance`: defaults a falsy token to "0x" on the caller's object,
     * switches the provider to the queried chain, and fetches the balance of
     * the queried address there.
     */
    method GetBalance(params: GetBalanceParams) returns (r: Result<WalletBalance>)
      modifies params`token, walletProvider`activeChain, walletProvider`trace
      ensures params.token == DefaultedToken(old(params.token))
      ensures walletProvider.activeChain
           == if walletProvider.switchOutcome(params.chain).None? then params.chain else old(walletProvider.activeChain)
      ensures walletProvider.trace
           == old(walletProvider.trace) + QueryCalls(walletProvider.switchOutcome(params.chain), params.chain, params.address)
      ensures r == QueryOutcome(walletProvider.switchOutcome(params.chain),
                                walletProvider.balanceOracle(params.chain, params.address),
                                params.chain, params.address)
    {
      if Falsy(params.token) {
        params.token := Some(DefaultToken);
      }
      var thrown := walletProvider.SwitchChain(params.chain);
      if thrown.Some? {
        return Err(thrown.value);
      }
      var fetched := walletProvider.GetWalletBalance(params.address);
      match fetched
      case Ok(amount) =>
        r := Ok(WalletBalance(params.chain, params.address, amount, []));
      case Err(message) =>
        r := Err(QueryFailedPrefix + message);
    }
  }

  // ---------------------------------------------------------------------------
  // Host glue: validate and the handler
  // ---------------------------------------------------------------------------

  /** `validate`: the `EVM_PRIVATE_KEY` setting is a string that starts with "0x". */
  function Validate(privateKey: Option<string>): bool
  {
    privateKey.Some? && KeyPrefix <= privateKey.value
  }

  /** The action is enabled exactly for a key of the form "0x" followed by anything. */
  lemma ValidateIff(privateKey: Option<string>)
    ensures Validate(privateKey) <==> exists rest :: privateKey == Some("0x" + rest)
  {
    if Validate(privateKey) {
      var key := privateKey.value;
      assert key == "0x" + key[2..];
    }
  }

  /** The structured part of the callback payload. */
  datatype Content =
    | SuccessContent(amount: string, address: string, chain: string)
    | ErrorContent(error: string)

  /** What the handler hands to its callback. */
  datatype Payload = Payload(text: string, content: Content)

  /** How a handler invocation ends: it returns a flag and a payload, or the promise rejects. */
  datatype HandlerOutcome =
    | Returned(success: bool, payload: Payload)
    | Raised(message: string)

  /** The success text; `token` is the parameter object's token after `getBalance` defaulted it. */
  function SuccessText(address: string, token: string, chain: string, amount: string): string
  {
    "Successfully query balance " + address + " (" + token + " tokens on " + chain + ". Amount: " + amount
  }

  /** The failure text. */
  function ErrorText(message: string): string
  {
    "Error get balance: " + message
  }

  /** The payload and flag the handler produces for a validated record and the query's outcome. */
  function Respond(details: Extraction, outcome: Result<WalletBalance>): HandlerOutcome
  {
    match outcome
    case Ok(balance) =>
      var token := DefaultedToken(details.token).value;
      Returned(true, Payload(SuccessText(details.address, token, details.chain, balance.amount),
                             SuccessContent(balance.amount, balance.address, details.chain)))
    case Err(message) =>
      Returned(false, Payload(ErrorText(message), ErrorContent(message)))
  }

  /**
   * The whole handler as a function of the gate's verdict and the provider's
   * oracles: a rejected chain escapes as a rejection; otherwise the query's
   * outcome is mapped to a flag and a payload.
   */
  function HandlerSpec(details: Result<Extraction>, switchOutcome: string -> Option<string>,
                       balanceOracle: (string, string) -> Result<string>): HandlerOutcome
  {
    match details
    case Err(message) => Raised(message)
    case Ok(d) =>
      Respond(d, QueryOutcome(switchOutcome(d.chain), balanceOracle(d.chain, d.address), d.chain, d.address))
  }

  /**
   * The action's handler, given the provider `initWalletProvider` created,
   * the composed context and the extraction engine. The gate runs outside
   * the `try`, so its error escapes; everything `getBalance` throws is caught.
   */
  method Handler(wp: WalletProvider, context: string, engine: string -> Extraction) returns (out: HandlerOutcome)
    requires wp.chains.Valid()
    modifies wp`activeChain, wp`trace
    ensures out == HandlerSpec(BuildGetBalanceDetails(context, wp.chains, engine), wp.switchOutcome, wp.balanceOracle)
    ensures out.Raised? ==> wp.trace == old(wp.trace) && wp.activeChain == old(wp.activeChain)
    ensures BuildGetBalanceDetails(context, wp.chains, engine).Ok? ==>
      var d := BuildGetBalanceDetails(context, wp.chains, engine).value;
      wp.trace == old(wp.trace) + QueryCalls(wp.switchOutcome(d.chain), d.chain, d.address)
    ensures BuildGetBalanceDetails(context, wp.chains, engine).Ok? ==>
      var d := BuildGetBalanceDetails(context, wp.chains, engine).value;
      wp.activeChain == if wp.switchOutcome(d.chain).None? then d.chain else old(wp.activeChain)
  {
    var action := new BalanceAction(wp);
    var details := BuildGetBalanceDetails(context, wp.chains, engine);
    if details.Err? {
      return Raised(details.message);
    }
    var params := new GetBalanceParams(details.value);
    var response := action.GetBalance(params);
    match response
    case Ok(balance) =>
      out := Returned(true, Payload(SuccessText(params.address, params.token.value, params.chain, balance.amount),
                                    SuccessContent(balance.amount, balance.address, params.chain)));
    case Err(message) =>
      out := Returned(false, Payload(ErrorText(message), ErrorContent(message)));
  }

  // ---------------------------------------------------------------------------
  // Properties of the pipeline
  // ---------------------------------------------------------------------------

  /** An extracted chain that is not configured makes the handler reject with the unknown-chain error. */
  lemma HandlerRejectsUnknownChain(context: string, chains: ChainTable, engine: string -> Extraction,
                                   switchOutcome: string -> Option<string>,
                                   balanceOracle: (string, string) -> Result<string>)
    requires chains.Valid()
    requires engine(PromptWithChains(context, chains)).chain !in chains.entries
    ensures HandlerSpec(BuildGetBalanceDetails(context, chains, engine), switchOutcome, balanceOracle)
         == Raised(UnknownChainMessage(engine(PromptWithChains(context, chains)).chain, chains.keys))
  {
  }

  /**
   * The handler returns true exactly when the gate passes, the switch does
   * not throw and the fetch succeeds; the payload then reports the fetched
   * amount for the extracted address and chain.
   */
  lemma HandlerSuccessIff(details: Result<Extraction>, switchOutcome: string -> Option<string>,
                          balanceOracle: (string, string) -> Result<string>)
    ensures var out := HandlerSpec(details, switchOutcome, balanceOracle);
      (out.Returned? && out.success) <==>
        (details.Ok? && switchOutcome(details.value.chain).None?
         && balanceOracle(details.value.chain, details.value.address).Ok?)
    ensures var out := HandlerSpec(details, switchOutcome, balanceOracle);
      out.Returned? && out.success ==>
        out.payload.content == SuccessContent(balanceOracle(details.value.chain, details.value.address).value,
                                              details.value.address, details.value.chain)
  {
  }

  /**
   * When the handler returns false, the payload carries one message: the
   * switch's own message when the switch threw, otherwise the fetch's message
   * behind the query-failed prefix; the text shows the same message.
   */
  lemma HandlerFailurePayload(details: Result<Extraction>, switchOutcome: string -> Option<string>,
                              balanceOracle: (string, string) -> Result<string>)
    ensures var out := HandlerSpec(details, switchOutcome, balanceOracle);
      out.Returned? && !out.success ==>
        && details.Ok?
        && out.payload.content.ErrorContent?
        && out.payload.text == ErrorText(out.payload.content.error)
        && (if switchOutcome(details.value.chain).Some?
            then out.payload.content.error == switchOutcome(details.value.chain).value
            else out.payload.content.error
                   == QueryFailedPrefix + balanceOracle(details.value.chain, details.value.address).message)
  {
  }

  /**
   * With a provider that accepts every configured chain, a query that passes
   * the gate can fail only in the fetch, so every failure payload carries
   * the query-failed prefix.
   */
  lemma ConsistentProviderFailsOnlyInFetch(context: string, chains: ChainTable, engine: string -> Extraction,
                                           switchOutcome: string -> Option<string>,
                                           balanceOracle: (string, string) -> Result<string>)
    requires chains.Valid()
    requires AcceptsConfigured(chains, switchOutcome)
    ensures var out := HandlerSpec(BuildGetBalanceDetails(context, chains, engine), switchOutcome, balanceOracle);
      out.Returned? && !out.success ==>
        out.payload.content.ErrorContent? && QueryFailedPrefix <= out.payload.content.error
  {
    var details := BuildGetBalanceDetails(context, chains, engine);
    if details.Ok? {
      assert details.value.chain in chains.entries;
      assert switchOutcome(details.value.chain).None?;
    }
  }

  /** The success text shows the token `getBalance` defaulted: "0x" when the extracted token was missing or empty. */
  lemma SuccessTextShowsDefaultedToken(details: Extraction, balance: WalletBalance)
    requires Falsy(details.token)
    ensures Respond(details, Ok(balance)).payload.text
         == SuccessText(details.address, DefaultToken, details.chain, balance.amount)
  {
  }
}
