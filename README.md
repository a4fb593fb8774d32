# Balance action of the balance plugin, modelled in Dafny

The balance plugin answers "what is the balance of address X on chain Y" in
three steps:

1. `buildGetBalanceDetails` lists the wallet provider's configured chains as
   `"a"|"b"|…` (key order) and splices that list into the extraction prompt.
   It does this with `String.prototype.replace`, which replaces only the first
   `SUPPORTED_CHAINS` and expands `$` patterns in the replacement. It then
   asks the extraction engine for a record `{chain, address, token?}` and
   rejects a chain that is not configured. The error names the chain and lists
   the configured names joined by `,`. A configured chain's record is passed
   through unchanged.
2. `BalanceAction.getBalance` changes the caller's parameter object: a falsy
   token becomes `"0x"`. It then switches the provider to the queried chain,
   fetches the balance of the queried address and returns
   `{chain, address, amount, tokens: []}`. A fetch failure is re-thrown as
   `"Query Balance failed: " + message`. `switchChain` is called without
   `await` and outside the `try`. Taking it to throw synchronously, a switch
   failure propagates with its own message.
3. The action's `handler` calls `buildGetBalanceDetails` outside its `try`.
   An unknown chain therefore rejects the handler's promise. Whatever
   `getBalance` throws is caught and becomes `false` with an `{error}` payload.
   Success becomes `true` with a `{success, amount, address, chain}` payload.
   The success text shows the token after `getBalance` defaulted it. `validate`
   accepts only an `EVM_PRIVATE_KEY` setting that is a string starting with
   `"0x"`.

Files:

- `wrappers.dfy`: `Option` (null/undefined) and `Result` (a value or a thrown
  Error's message).
- `js_text.dfy`: the JavaScript built-ins the action calls. These are
  `join` (also behind the array's `toString`) and `replace` with a string
  pattern. `replace` finds the first occurrence as `indexOf` does and expands
  `$` patterns by ECMAScript GetSubstitution with no capture groups. The file
  also has a one-character `split`, which the action never calls. It is there
  only to read the rendered chain list and the unknown-chain error back in
  the lemmas.
- `wallet.dfy`: the wallet provider as a class. It holds the chain table (an
  entry map plus the `Object.keys` order), the mutable active chain, two
  oracles fixed at creation (what `switchChain` throws, and what
  `getWalletBalance` yields for an active chain and address), and a ghost
  trace of the calls made on it.
- `balance.dfy`: the action itself. It has the parameter object and
  `BalanceAction` as classes, the prompt and gate as functions, the handler as
  a method, and the lemmas relating them.

## Model

| member | source | states |
|---|---|---|
| `JsText.IndexOfFrom` | packages/plugin-balance/src/actions/balance.ts:57-60 | The index found is an occurrence of the pattern, and no earlier index is one. No index means no occurrence at all. |
| `JsText.ReplaceFirst` | packages/plugin-balance/src/actions/balance.ts:57-60 | Only the first occurrence of the pattern is replaced, by the expanded replacement. A string without the pattern is returned unchanged. |
| `JsText.Join` | packages/plugin-balance/src/actions/balance.ts:59-75 | Models the vertical-bar join at line 59 and `chains.toString()` (a `,` join) at line 75. An empty array joins to "", and a non-empty join starts with the first part. `JoinAvoids` adds that a character in neither the separator nor any part is absent from the result. |
| `JsText.JoinShape` | packages/plugin-balance/src/actions/balance.ts:59 | A non-empty join ends with the last part. Its length is the total length of the parts plus `(n - 1)` separators. |
| `JsText.Substitute` | packages/plugin-balance/src/actions/balance.ts:57-60 | The `$`-pattern expansion `replace` applies to its replacement: `$$`, `$&`, `` $` `` and `$'` expand, any other `$` stays. The contract states that a replacement without `$` comes out unchanged. |
| `JsText.ReplaceFirstLiteral` | packages/plugin-balance/src/actions/balance.ts:57-60 | With a `$`-free replacement, the first occurrence is swapped for the replacement and everything else is kept. |
| `Balance.RenderChainListRoundTrip` | packages/plugin-balance/src/actions/balance.ts:55-59 | The rendered list is each name in double quotes, joined by a vertical bar, in key order. Splitting and unquoting it gives back exactly the names, provided no name contains a vertical bar. |
| `Balance.PromptOffersConfiguredChains` | packages/plugin-balance/src/actions/balance.ts:55-59 | For a well-formed chain table in which no name contains a vertical bar, a name is offered in the prompt's list iff it is configured. |
| `Balance.RenderChainListDollarFree` | packages/plugin-balance/src/actions/balance.ts:57-59 | The rendered list holds no `$` unless a chain name does, so `replace` inserts it literally. |
| `Balance.PromptWithChainsSplices` | packages/plugin-balance/src/actions/balance.ts:57-60 | Provided no configured name contains `$` and the context holds `SUPPORTED_CHAINS` with its first occurrence at `i`: the engine's prompt is the context with that occurrence replaced by the rendered list. |
| `Balance.UnknownChainMessageListsNames` | packages/plugin-balance/src/actions/balance.ts:71-76 | The unknown-chain error starts with the fixed lead naming the chain. If at least one name is configured and none contains `,`, the rest of the message split at `,` is the configured names in key order. |
| `Balance.CheckChain` | packages/plugin-balance/src/actions/balance.ts:68-79 | Passes iff the chain is configured, and then returns the record unchanged (no token default, no address check). Otherwise it fails with the unknown-chain message. |
| `Balance.BuildGetBalanceDetails` | packages/plugin-balance/src/actions/balance.ts:45-80 | Fails iff the engine's record for the spliced prompt names an unconfigured chain. On success it returns that record, whose chain is configured. |
| `Balance.DefaultedToken` | packages/plugin-balance/src/actions/balance.ts:24-26 | The token afterwards is never falsy. A truthy token is kept, and a falsy one (null, undefined, "") becomes `"0x"`. |
| `Balance.QueryOutcome` | packages/plugin-balance/src/actions/balance.ts:28-41 | Succeeds iff the switch does not throw and the fetch succeeds. Success is `{chain, address, fetched amount, []}`. A switch error keeps its message. A fetch error gets the `Query Balance failed: ` prefix. |
| `Wallet.WalletProvider.constructor` | packages/plugin-balance/src/actions/balance.ts:55 | Requires a chain table whose key order lists each configured name exactly once, as `Object.keys` does. The table is fixed at creation. The active chain and the oracles are as given, and the call trace starts empty. |
| `Wallet.WalletProvider.SwitchChain` | packages/plugin-balance/src/actions/balance.ts:28 | The active chain becomes the requested one unless the switch throws, in which case it is unchanged. The call is recorded. |
| `Wallet.WalletProvider.GetWalletBalance` | packages/plugin-balance/src/actions/balance.ts:31 | Yields the oracle's answer for the active chain and the given address. The call is recorded. |
| `Balance.BalanceAction.GetBalance` | packages/plugin-balance/src/actions/balance.ts:19-42 | Defaults the caller's token in place. Makes one switch to `params.chain`, then (only if that did not throw) one fetch for `params.address` on that chain. The active chain ends as `params.chain` unless the switch threw. The result is `QueryOutcome`. |
| `Balance.ValidateIff` | packages/plugin-balance/src/actions/balance.ts:129-132 | `validate` holds iff the setting is a string of the form `"0x"` followed by anything. |
| `Balance.Handler` | packages/plugin-balance/src/actions/balance.ts:85-127 | The handler's outcome is the gate's verdict followed by the query's mapped outcome. On rejection, no provider call is made and the active chain is unchanged. Otherwise the provider sees exactly `getBalance`'s calls. It is left on the extracted chain unless the switch threw, and then on the chain it started on. |
| `Balance.HandlerRejectsUnknownChain` | packages/plugin-balance/src/actions/balance.ts:97-101 | For a well-formed chain table, an unconfigured extracted chain makes the handler reject with the unknown-chain error. It does not return false. |
| `Balance.HandlerSuccessIff` | packages/plugin-balance/src/actions/balance.ts:103-116 | The handler returns true iff the gate passes, the switch does not throw and the fetch succeeds. The payload then has the fetched amount, the address and the chain. |
| `Balance.HandlerFailurePayload` | packages/plugin-balance/src/actions/balance.ts:117-126 | A false return follows a passed gate. Its `{error}` payload and text carry the switch's own message, or the prefixed fetch message. |
| `Balance.ConsistentProviderFailsOnlyInFetch` | packages/plugin-balance/src/actions/balance.ts:97-126 | For a well-formed chain table whose every chain the provider accepts, every failure payload has the query-failed prefix. |
| `Balance.SuccessTextShowsDefaultedToken` | packages/plugin-balance/src/actions/balance.ts:104-107 | For a missing or empty extracted token, the success text shows `"0x"`. That is the value `getBalance` wrote into the shared parameter object. |

## Left out

- `composeContext` and `generateObjectDeprecated`, the template engine and the language model, are inputs. The model takes the composed context string and a function from the final prompt to the extracted record.
- The record's fields are strings, with `token` optional. A non-string `chain` or `address` from the model (a missing `chain` would print as `undefined` in the error, a number as itself, an object as `[object Object]`) is not modelled.
- `initWalletProvider`, `WalletProvider.switchChain` and `getWalletBalance` do RPC I/O, and the wallet provider module is not part of this model. The provider is a class whose switch and fetch behaviour are oracles fixed when it is created.
- The order of `Object.keys` (integer-like keys first, then insertion order) is not derived. The key order is part of the chain table.
- Chain lookup is plain map membership. Inherited prototype properties that would pass `wp.chains[name]` are not modelled.
- `WalletProvider.switchChain` is taken to throw synchronously, because balance.ts:28 calls it without `await`. If it were asynchronous, its rejection would reach neither the `catch` nor `getBalance`'s caller, and the fetch would still run. The switch-error outcome of `QueryOutcome`, `BalanceAction.GetBalance` and `Handler` rests on this assumption.
- Strings are sequences of Unicode scalar values, whereas JavaScript strings are UTF-16 code units. For a string with characters outside the Basic Multilingual Plane, the index `IndexOfFrom` gives and the lengths in `JoinShape` differ from what `indexOf` and `.length` report. The strings `replace` and `join` produce are the same either way.
- A thrown value that is not an `Error` (whose `message` would be `undefined`) is not modelled. Every failure carries a message string.
- `console.log` / `console.error`, the `async`/Promise machinery, and the optional callback are left out. The callback payload is always returned; without a callback the source delivers nothing.
- Concurrent queries racing on a shared active chain are left out. Execution is sequential, and the handler gets the provider that `initWalletProvider` creates for the call.
- Plugin registration (`packages/plugin-balance/src/index.ts`), the prompt template text and the action's `examples` data have no logic and are not modelled.
