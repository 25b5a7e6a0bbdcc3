# Tron transaction signing

A model of how a Trezor device signs a Tron transaction. It covers
`src/apps/tron/layout.py` and `src/apps/tron/sign_tx.py`:

- `validate` checks the request;
- the device derives the key and its own address;
- `_require_confirm_by_type` shows the attached data and then the prompt of
  the one contract kind the request carries;
- only after every prompt is accepted does the device serialize, hash and
  sign, then repack the 65-byte signature.

The model's main ideas:

- **Prompts are values.** A prompt is a `Ui.Text`: a title, an icon and styled
  lines appended in order, the way `text.bold`, `text.normal` and
  `text.mono` append them.
- **The user is a sequence of answers.** Each `require_confirm` takes one
  answer. `true` accepts. `false`, or no answer left, raises
  `ActionCancelled`.
- **The device keeps a log.** A `Confirm.Session` holds the remaining
  answers and a log of what the device has done so far: derive the key,
  show a prompt, serialize, hash, sign.
- **Outside code is a parameter.** Key derivation, the public key, the
  address, base58, the serializer, SHA-256 and the signing primitive are
  function fields of `SignTx.Env`.

Modules:

| module | contents |
|---|---|
| `Utils` | `chunks` |
| `Strings` | Python's `str(int)` and its inverse |
| `Ui` | the text widget as a value |
| `Confirm` | `require_confirm` and runs of prompts |
| `Layout` | `layout.py` |
| `SignTx` | `sign_tx.py` |
| `Messages`, `Wire` | message shapes and errors |

The code is modelled in the same form as the source:

- **Imperative where the source loops.** The proposal loop
  (`Layout.RequireConfirmProposalCreate`), the vote count
  (`SignTx.CountVotes`) and the fixed sequence of steps in `sign_tx`
  (`SignTx.SignTx`) are methods. The loop and the vote count are proved
  equal to closed forms (`Confirm.ConfirmAll`, `SignTx.SumVotes`).
  `SignTx.SignTx` is proved equal to `SignTx.Signing`, the same steps
  written as a function, whose properties are proved by
  `SignTx.SigningResult`, `SignTx.FlowTrace` and `SignTx.SigningIsFlow`.
  `SignTx.SignTx` does not call the two loop methods: the dispatch it runs
  uses `Confirm.ConfirmAll` and `SignTx.SumVotes` directly, and the loops are
  tied to the flow only by their proved equality with those closed forms.
- **Pure functions elsewhere.** The dispatch, a chain of guarded returns, is
  pure (`SignTx.Dispatch`). So are the formatters and the signature repack.

Some consequences of the code that are easy to miss:

- The dispatch checks sixteen contract kinds.
- The data prompt is shown before the dispatch. A request whose contract has
  no populated kind therefore still shows its data prompt before
  `DataError("Invalid transaction type")`.
- One TRX shows as "1.0 TRX", because Python prints a float.
- A proposal with no parameters shows no prompt at all, and is signed.

## Model

| member | source | states |
|---|---|---|
| Utils.Chunks | src/apps/tron/layout.py:155-160 | the chunks concatenate back to the input; every chunk is non-empty and at most `size` long; all but the last are exactly `size` |
| Utils.ChunkCount | src/apps/tron/layout.py:155-160 | there are exactly ceil(len/size) chunks, and none for an empty input |
| Strings.IntToStringRoundTrip | src/apps/tron/layout.py:151-152 | the decimal text of an integer reads back as that integer, so different amounts never print alike |
| Strings.IntTextRoundTrip | src/apps/tron/layout.py:151-152 | conversely, every canonical integer text (optional minus, no leading zero, no "-0") is the text of the integer it reads as, so each integer has exactly one text |
| Layout.SplitAddress | src/apps/tron/layout.py:155-156 | `split_address` cuts into 16-character lines that concatenate back to the input |
| Layout.SplitText | src/apps/tron/layout.py:159-160 | `split_text` cuts into 18-character lines that concatenate back to the input |
| Layout.SplitAddressOf32 | src/apps/tron/layout.py:155-156 | a 32-character text becomes exactly its two halves |
| Ui.WrapsChunks | src/apps/tron/layout.py:159-160 | appending the chunks of a text as styled lines lays that text out at the width |
| Ui.WrapsUnique | src/apps/tron/layout.py:159-160 | the chunked lines are the only lines that lay a text out at a width, so each builder's `Wraps` contract fixes its lines exactly |
| Layout.FormatAmountToken | src/apps/tron/layout.py:151-152 | the result is the canonical decimal text of the integer (optional minus, no leading zero, never "-0"), reading back as that integer, followed by exactly one space |
| Layout.TrxDigits | src/apps/tron/layout.py:147-148 | the digits before and after the point give the amount divided by 10^6 exactly; the whole part has no leading zero; at least one and at most six fractional digits, and no trailing zero beyond the first |
| Layout.FormatAmountTrx | src/apps/tron/layout.py:147-148 | the amount text ends in " TRX" |
| Layout.FormatAmountTrxReads | src/apps/tron/layout.py:147-148 | the text is an optional minus (exactly for negative amounts), whole digits without a leading zero, ".", one to six fractional digits and " TRX", and the digits read as the amount divided by 10^6 exactly |
| Layout.FormatAmountTrxExamples | src/apps/tron/layout.py:147-148 | 1000000 shows as "1.0 TRX" and 2500000 as "2.5 TRX" |
| Layout.ParameterTextTotal | src/apps/tron/layout.py:163-180 | codes 0 to 13 get their table names; every other code gets "Invalid parameter" |
| Layout.ParameterNamesDistinct | src/apps/tron/layout.py:163-180 | no two codes share a name |
| Layout.ParameterTextExamples | src/apps/tron/layout.py:163-180 | 9 is "Allow creation of contracts"; 99 and -1 are "Invalid parameter" |
| Layout.DataPrompt | src/apps/tron/layout.py:9-12 | "Data attached": the data in normal lines of 18 characters |
| Layout.TxPrompt | src/apps/tron/layout.py:15-19 | "Confirm sending": the TRX amount in bold, then "To: " and the destination in mono lines of 16 |
| Layout.TxAssetPrompt | src/apps/tron/layout.py:22-26 | "Confirm sending": the token amount, a space and the token name in bold, then the destination as for TRX |
| Layout.VoteWitnessPrompt | src/apps/tron/layout.py:29-34 | the bold "SR Voting" heading, then the number of candidates and the total of votes as decimals |
| Layout.WitnessContractPrompt | src/apps/tron/layout.py:37-41 | "Apply for SR", then "URL: " and the URL in mono lines of 18 |
| Layout.AssetIssuePrompt | src/apps/tron/layout.py:44-52 | "Create Token", the name, the supply with its abbreviation, and the ratio |
| Layout.WitnessUpdatePrompt | src/apps/tron/layout.py:55-60 | "Update Witness", the owner address on one normal line, then the new URL in mono lines of 16 |
| Layout.ParticipateAssetPrompt | src/apps/tron/layout.py:63-69 | the token in mono, then the amount as a token amount |
| Layout.AccountUpdatePrompt | src/apps/tron/layout.py:72-77 | "Account Update", then the new name |
| Layout.FreezeBalancePrompt | src/apps/tron/layout.py:80-86 | the TRX amount in bold, then the duration in days |
| Layout.UnfreezeBalancePrompt | src/apps/tron/layout.py:89-93 | "Confirm transaction" with the send icon, a fixed bold heading, then a fixed notice in mono lines of 18; no transaction field |
| Layout.WithdrawBalancePrompt | src/apps/tron/layout.py:96-100 | "Confirm transaction" with the send icon, a fixed bold heading, then a fixed notice in mono lines of 18; no transaction field |
| Layout.UnfreezeAssetPrompt | src/apps/tron/layout.py:103-107 | "Confirm transaction" with the send icon, a fixed bold heading, then a fixed notice in mono lines of 18; no transaction field |
| Layout.UpdateAssetPrompt | src/apps/tron/layout.py:110-115 | "Update Token", the description in mono lines of 18, then the URL on the last line |
| Layout.ProposalParameterPrompt | src/apps/tron/layout.py:120-124 | "Confirm proposal": the normal lines read "Parameter: " and the parameter's name, the mono lines read "Value: " and its value; nothing is bold, no line is over 18, and no normal line follows a mono one; the lines split into the name cut into 18-character normal lines followed by the value cut into 18-character mono lines |
| Layout.RequireConfirmProposalCreate | src/apps/tron/layout.py:118-129 | the loop is one run of the per-parameter prompts in list order: it stops at the first refusal, so no later parameter is shown |
| Layout.ProposalApprovePrompt | src/apps/tron/layout.py:132-137 | "Proposal Approval", the id, and "Approve: True" or "Approve: False" |
| Layout.ProposalDeletePrompt | src/apps/tron/layout.py:140-144 | "Proposal Delete" and the id |
| Confirm.ConfirmEachIsConfirmAll | src/apps/tron/layout.py:119-129 | `require_confirm` one prompt after the other, stopping at the first raise, equals the closed form: prompts are shown up to and including the first refused one, one answer is used per prompt shown, and the run passes only if all are accepted |
| Confirm.RequireConfirmIsRunOfOne | src/apps/tron/layout.py:12 | a single `require_confirm` is a run of one prompt |
| Confirm.ConfirmAllAppend | src/apps/tron/sign_tx.py:41-47 | showing the data prompt and then the contract prompts is one run over both; the second part starts only if the first passed |
| Confirm.RejectStopsRun | src/apps/tron/layout.py:125-126 | if prompt k is the first refused, exactly prompts 0..k are shown and the run raises `ActionCancelled` |
| Confirm.AcceptAllRun | src/apps/tron/layout.py:119-129 | a run passes exactly when every prompt is accepted, and then all of them are shown, in order |
| SignTx.Validate | src/apps/tron/sign_tx.py:147-152 | passes exactly when the contract is present; otherwise `ProcessError` with the source's message |
| SignTx.SelectedIsFirstPopulated | src/apps/tron/sign_tx.py:45-144 | no kind is chosen exactly when none of the sixteen is populated; otherwise the chosen one is populated and every kind checked before it is empty |
| SignTx.CountVotes | src/apps/tron/sign_tx.py:63-68 | the loop counts one candidate per vote entry and totals their vote counts |
| SignTx.SumVotesAppend | src/apps/tron/sign_tx.py:63-68 | the vote total adds up over a split of the votes |
| SignTx.AsciiText | src/apps/tron/sign_tx.py:88 | `str(owner_address, "utf-8")` keeps one character per byte, with the byte's value |
| SignTx.VariantPrompts | src/apps/tron/sign_tx.py:46-142 | every kind except a proposal shows exactly one prompt (a proposal's prompts are stated by `ProposalKindPrompts`) |
| SignTx.Dispatch | src/apps/tron/sign_tx.py:39-44 | the outcome is a pass, `ActionCancelled` or `DataError("Invalid transaction type")`; a pass needs a populated kind; the `DataError` comes exactly when no kind is populated and the data prompt, if any, was accepted |
| SignTx.TransferKindPrompts | src/apps/tron/sign_tx.py:46-51 | a transfer shows one prompt: the contract's own amount in TRX in bold, then "To: " and the base58 of its destination in mono lines of 16 |
| SignTx.TransferAssetKindPrompts | src/apps/tron/sign_tx.py:53-59 | a token transfer shows one prompt: the contract's amount, a space and its token name in bold, then its destination as for TRX |
| SignTx.VoteWitnessKindPrompts | src/apps/tron/sign_tx.py:61-68 | a vote shows one prompt, built from the number of vote entries and the sum of their counts |
| SignTx.FreezeBalanceKindPrompts | src/apps/tron/sign_tx.py:101-106 | a freeze shows one prompt whose amount line is the contract's frozen balance in TRX, with its duration |
| SignTx.WitnessUpdateShowsOwner | src/apps/tron/sign_tx.py:85-90 | a witness update shows one prompt, whose second line is the device's own address |
| SignTx.ProposalKindPrompts | src/apps/tron/sign_tx.py:127-130 | a proposal shows exactly the per-parameter prompts of the proposal loop, in parameter order |
| SignTx.EmptyProposalPrompts | src/apps/tron/sign_tx.py:127-130 | a proposal without parameters has no prompt |
| SignTx.RepackSignature | src/apps/tron/sign_tx.py:35 | 65 bytes: the 64 bytes of r and s first, then `(~raw[0]) & 1`, so the last byte is 1 - raw[0] mod 2 |
| SignTx.RepackSignatureExamples | src/apps/tron/sign_tx.py:35 | a header byte of 0 gives 1, and one of 1 gives 0 |
| SignTx.SignTx | src/apps/tron/sign_tx.py:15-36 | the steps of `sign_tx` give exactly the session and result of `Signing` |
| SignTx.DispatchIsRun | src/apps/tron/sign_tx.py:39-144 | the dispatch is one run over the data prompt and the chosen kind's prompts; with no kind, it raises `DataError("Invalid transaction type")` once the data prompt is accepted |
| SignTx.FlowTrace | src/apps/tron/sign_tx.py:24-36 | after dispatch: a signature results exactly when a kind was found and every prompt was accepted. One answer is used per prompt shown. The log shows the prompts up to the first refusal; serialize, hash and sign come after them, and only on success. A refusal raises `ActionCancelled`, otherwise a missing kind raises `DataError` |
| SignTx.SigningIsFlow | src/apps/tron/sign_tx.py:15-36 | after validation, `sign_tx` derives the key and then runs that flow over the request's own data prompt and contract prompts; prompts exist exactly when a kind is populated |
| SignTx.SigningResult | src/apps/tron/sign_tx.py:15-36 | a request without a contract is refused with `ProcessError` before anything is logged. Otherwise the result is a signature exactly when a kind is populated and every prompt is accepted, and the error is chosen as the source does. The signature is the repacked signature, made with the key of the requested path, over the hash of exactly the bytes returned as `serialized_tx` |
| SignTx.NothingToConfirm | src/apps/tron/sign_tx.py:24-36 | with no prompt to show, the flow signs at once, uses no answer and logs serialize, hash, sign |
| SignTx.EmptyProposalSigned | src/apps/tron/sign_tx.py:15-36 | a proposal with no parameters and no data is signed without any confirmation; the log is the key derivation, then serialize, hash and sign |

## Left out

- Layout.FormatAmountTrx: the source divides as a Python float and prints it with `%s`. The model shows the exact decimal with at least one fractional digit. It does not model float rounding of large amounts or the exponent notation Python uses for very small ones.
- Layout.RequireConfirmProposalCreate: the `except AttributeError: return False` path is not modelled. It depends on Python's dynamic attribute errors, and the caller discards the result.
- SignTx.SignTx: the `except AttributeError` that turns into "The transaction has invalid asset data field" is not modelled, for the same reason.
- SignTx.Validate: the `print(msg)` debugging output is not modelled.
- Icon colours and `ButtonRequestType` are not modelled, because they do not change what is shown or signed. Neither is the rendering of the text widget.
- Key derivation, `secp256k1.publickey`, `get_address_from_public_key`, `_b58b`, `serialize`, `sha256` and `secp256k1.sign` are parameters of the model (`SignTx.Env`). They are not part of this model.
- `async`/`await` and the wire context are not modelled. The context is a value threaded through the calls.
- SignTx.AsciiText: decodes each byte as one character. That is exact for the ASCII text of a base58 address, but not for arbitrary UTF-8.
- Absent message fields are not modelled: every sub-field of a contract is a required value. In the source a missing field is `None`, which `format` prints as "URL: None", "Days: None" or "Approve: None", and which makes `int(None)` raise `TypeError` in the amount formatters.
- Failures of the outside code (a raising key derivation or serializer) are not modelled: the `SignTx.Env` functions are total.
- `trezor.utils.chunks` is not part of this model's sources. It is modelled as slicing into consecutive pieces of the given size.
- `_require_confirm_by_type` is a chain of guarded returns and is modelled as a pure function (`SignTx.Dispatch`), not as a method.
- SignTx.FlowTrace and SignTx.SigningIsFlow: the session after `sign_tx` (answers used and log) is stated for the dispatch flow, and tied to `sign_tx` by `SigningIsFlow`. It is not restated as one lemma over `Signing` itself.
