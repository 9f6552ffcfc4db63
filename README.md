# Treasury scripts: validate-then-encode, in Dafny

This project models the command-line scripts that talk to the Treasury
contract. Each script takes a few JavaScript values:

1. It runs a fixed, ordered chain of guards. Each failing guard raises a
   `TreasuryError` with its own code.
2. It builds one message body with `createMessageBody`. The body is the 32-bit
   zero op code, then the method name, then the fields that method's case of
   the switch writes.
3. It sends that body to the Treasury with a value: either a fixed gas fee or
   the converted amount.

The model also covers the contract wrapper's initial-data layout, its two
constructors and its two getters.

How the model represents the system:

- **Numbers.** A JavaScript number is `Numbers.Number`: a finite value (an
  exact real), `NaN`, or one of the two infinities. Comparisons with `NaN`
  are false, as in JavaScript.
- **Cells.** A cell is a sequence of field tokens (`Cells.Field`: an unsigned
  integer of a stated width, coins, a string tail, an address or a reference).
  The SDK's builder is the class `Cells.Builder`. Each of its stores either
  appends the token or reports the throw the SDK would raise.
- **Message bodies.** `createMessageBody` is the method
  `Utils.CreateMessageBody`. It works step by step on a builder and is proved
  equal to the table-driven function `Utils.MessageBody`. Every property of
  bodies is proved about that function:
  - what each method name writes;
  - when the builder throws;
  - that `Utils.DecodeBody` reads a body back, and that a well-formed body is
    re-encoded from what it decodes to.
- **Loops.** `createLinearWeights` and `createWinnersArray` are methods with
  loops. Each is proved equal to a function, and the weights check is proved
  about that function.
- **Scripts.** Each script is a pure function returning `Utils.Outcome`:
  - `Submit(body, value)`: the message `sendTransaction` would be handed;
  - `Rejected(code)`: a `TreasuryError` with that code;
  - `Fault`: any other throw, such as `BigInt` of a fraction or a value too
    wide for its field.

Points where the code's behaviour is easy to misread. The model follows the code in each:

- **Weights check.** `validateLinearWeights` compares only the sum with
  n(n+1)/2, so `[2, 2, 2]` passes (`Utils.ValidateChecksOnlySum`).
- **Winners count.** `payoutPaid`'s test `winnersCount <= 0 || winnersCount > 100`
  is false for `NaN` and lets fractions through (see Findings).
- **Day.** `validateDay` requires a whole number as well as the range.
- **Entry fee.** `storeCoins` bounds the entry fee by 2^120 (`Cells.CoinsBits`).
- **Mock winner addresses.** From index 100 on, that is for counts above 100,
  the mock text `createWinnersArray` builds is 49 characters long, one more
  than a user-friendly address. A parser that refuses 49-character texts makes
  `payoutAirdrop` throw for top counts 101 to 1000
  (`PayoutAirdropScript.PayoutAirdropLongAddresses`).
- **Address.parse on the mock texts.** The last characters of a user-friendly
  address carry its checksum, and the mock texts overwrite them with the index.
  The model does not compute that checksum, so it does not decide whether the
  SDK's parser accepts them. The payout lemmas state the outcome for every
  parser. When the first mock text is refused, every positive count the guards let through throws
  (`PayoutPaidScript.PayoutPaidFirstTextRefused`,
  `PayoutAirdropScript.PayoutAirdropFirstTextRefused`).

## Model

| member | source | states |
|---|---|---|
| Cells.UintField | scripts/utils.ts:94-97 | storeUint writes a field of the given width that fits it and reads back as the value stored; it throws exactly when no such field exists |
| Cells.CoinsField | scripts/utils.ts:96 | storeCoins writes a coins field that fits 120 bits and reads back as the value stored; it throws exactly when no such field exists |
| Cells.RefField | scripts/utils.ts:121 | storeRef writes a reference that reads back as the cell it was handed; it throws exactly when no reference does, that is, when it is not handed a cell |
| Cells.Pow2Double | scripts/utils.ts:94-97 | the bound 2^bits that storeUint checks doubles with each bit, so the width table used for 16, 32, 120 and 256 bits is the power of two it is named for |
| Cells.Builder.constructor | scripts/utils.ts:85 | beginCell starts with no fields, so the invariant that every field fits its width holds |
| Cells.Builder.StoreUint | scripts/utils.ts:88 | a store that succeeds appends exactly one field; one that throws leaves the builder as it was; every field still fits its width |
| Cells.Builder.StoreCoins | scripts/utils.ts:96 | the same for coins |
| Cells.Builder.StoreRef | scripts/utils.ts:121 | the same for references |
| Cells.Builder.StoreStringTail | scripts/utils.ts:89 | appends the method name as one string field |
| Cells.Builder.EndCell | scripts/utils.ts:125 | the cell holds exactly the fields written, in order, and, because every store keeps its field within its width, it is well formed as soon as the cells it references are |
| Utils.ValidAmountExactly | scripts/utils.ts:209-212 | validateAmount holds iff the amount's numeric value is finite and strictly positive (false for NaN, the infinities, 0 and negatives) |
| Utils.ValidRoomIdExactly | scripts/utils.ts:214-216 | validateRoomId holds iff the number is a whole k > 0 |
| Utils.ValidDayExactly | scripts/utils.ts:218-220 | validateDay holds iff the number is a whole k with 20240000 <= k <= 20300000, both ends included; such a day fits 32 bits |
| Utils.ValidTierExactly | scripts/utils.ts:222-224 | validateTier holds iff the tier is 1, 2 or 3; such a tier fits 32 bits |
| Utils.ToNano | scripts/openRoom.ts:40 | toNano's nanotons, read back as tons (divided by 10^9), are the amount it was given |
| Utils.ToNanoReaches | scripts/openRoom.ts:40 | every whole number k of nanotons is what k / 10^9 tons converts to, so toNano fails only on amounts that are no whole number of nanotons |
| Utils.ConvertAmount | scripts/openRoom.ts:40 | a converted amount is positive exactly when the amount is greater than 0 |
| Utils.ConvertAmountScalesOnlyText | scripts/openRoom.ts:40 | the string k converts to k * 10^9 nanotons and the number k to k |
| Utils.FractionalNumberDoesNotConvert | scripts/fundAirdrop.ts:20 | BigInt refuses a fractional number, so such an amount never converts |
| Utils.FromNumber | scripts/utils.ts:94-97 | the builder is handed the integer k exactly when the number is the whole number k, and a missing argument (which throws) for every other number |
| Utils.CreateRoomKey | scripts/utils.ts:51-53 | BigInt throws unless both numbers are whole; for the whole numbers r and d the key is r + d |
| Utils.RoomKeyCollides | scripts/utils.ts:51-53 | distinct valid (room, day) pairs share a key: (r, d) and (r + 1, d - 1) |
| Utils.IterationsBelow | scripts/utils.ts:69 | the loop index i runs while i < count: exactly the naturals below the count |
| Utils.CreateLinearWeights | scripts/utils.ts:67-73 | the loop returns exactly count - i for every natural i below count |
| Utils.LinearWeightsOfCount | scripts/utils.ts:67-73 | for a whole n the weights are [n, ..., 1]: length n, strictly decreasing, first n, last 1 |
| Utils.DecimalTextLength | scripts/utils.ts:60 | i.toString() has one digit below 10, two below 100, three below 1000, and four or more from 1000 on |
| Utils.PadStart2Pads | scripts/utils.ts:60 | padStart(2, '0') keeps the text as its suffix and yields length max(2, length) |
| Utils.WinnerTextLength | scripts/utils.ts:60 | the mock address text is 48 characters long exactly for the indices below 100, and 49 for the indices 100 to 999 |
| Utils.CreateWinnersArray | scripts/utils.ts:56-64 | the loop returns one mock address per natural below count, or fails as soon as the parser refuses one |
| Utils.MockAddressesAt | scripts/utils.ts:58-62 | entry k of the pushed list is the address parsed from winner k's text, so the list keeps the loop's order |
| Utils.SumConcat | scripts/utils.ts:79 | the reduce fold adds over concatenation |
| Utils.SumDescending | scripts/utils.ts:76-81 | [n, ..., 1] sums to n(n+1)/2 |
| Utils.SumPermutation | scripts/utils.ts:79 | the sum does not depend on the order of the weights |
| Utils.GeneratedWeightsValid | scripts/utils.ts:67-81 | the weights for every whole count pass the check, and total n(n+1)/2 (the total payoutPaid reports) |
| Utils.ValidateAcceptsPermutations | scripts/utils.ts:76-81 | every ordering of [n, ..., 1] passes the check |
| Utils.ValidateChecksOnlySum | scripts/utils.ts:76-81 | the check also accepts [2, 2, 2], which is not an ordering of [3, 2, 1], and the empty list |
| Utils.FractionalCountFailsWeights | scripts/utils.ts:67-81 | count 2.5 gives weights [2.5, 1.5, 0.5], which fail the check |
| Utils.EncodeFields | scripts/utils.ts:92-123 | the stores after the header all succeed iff each one does, and then field j is what store j writes |
| Utils.MessageBody | scripts/utils.ts:84-126 | every body is the header (0 in 32 bits, the method name) followed by one field per slot of its method's case |
| Utils.MessageBodyFits | scripts/utils.ts:84-126 | a body is built iff every parameter its case stores fits its field |
| Utils.StoreOpenRoom | scripts/utils.ts:93-98 | the open_room case stores its four parameters in order, or stops at the first that throws |
| Utils.StoreRoomAndDay | scripts/utils.ts:100-114 | the enter_paid, close_room and payout_paid cases store room id then day, or stop at the first that throws |
| Utils.CreateMessageBody | scripts/utils.ts:84-126 | the builder, step by step, ends with exactly the body MessageBody describes, and throws exactly where it has none |
| Utils.DecodeMessageBody | scripts/utils.ts:84-126 | a body reads back as its method name and exactly the parameters its case stores |
| Utils.EncodeDecodedBody | scripts/utils.ts:84-126 | every well-formed body that reads back is the body its reading encodes to |
| Utils.OpenRoomBody | scripts/utils.ts:93-98 | open_room: header, Uint(room, 256), Uint(day, 32), Coins(fee), Uint(tier, 32), for in-range values |
| Utils.OpenRoomBodyOverflow | scripts/utils.ts:93-98 | open_room throws when the room id, day, fee or tier is out of range for its field |
| Utils.RoomDayBody | scripts/utils.ts:100-114 | enter_paid, close_room, payout_paid: header, Uint(room, 256), Uint(day, 32), and a throw when either is out of range |
| Utils.HeaderOnlyBody | scripts/utils.ts:116-123 | payout_airdrop and every name the switch does not list get the header only, whatever the parameters |
| Utils.UpgradeBody | scripts/utils.ts:120-122 | upgrade: header plus exactly one reference, to the cell given first |
| Utils.MessageBodyWellFormed | scripts/utils.ts:84-126 | every body built is well formed, with each field within its width |
| OpenRoomScript.OpenRoomGuards | scripts/openRoom.ts:23-37 | the guards run room id, day, entry fee, tier, and the first that fails gives the code; a rejection happens iff some guard fails |
| OpenRoomScript.OpenRoomSubmits | scripts/openRoom.ts:39-51 | past the guards, the message is the open_room body of room id, day, converted fee and tier, with 0.1 TON; a fee that does not convert, or a value too wide, throws |
| OpenRoomScript.OpenRoomBodyDecodes | scripts/openRoom.ts:43 | a sent body reads back as open_room with exactly the four arguments given to createMessageBody |
| OpenRoomScript.OpenRoomExample | scripts/openRoom.ts:79 | the usage example's fee field: the string "1.0" gives 10^9 nanotons; the number 1 the command line passes gives 1 |
| OpenRoomScript.OpenRoomRejections | scripts/openRoom.ts:23-37 | room 0 and -1, day 20300001, fee 0 and tier 4 are each refused with their own code |
| OpenRoomScript.OpenRoomRoomIdTooWide | scripts/openRoom.ts:23-43 | room id 2^256 passes validateRoomId, and the 256-bit store then throws |
| OpenRoomScript.OpenRoomStoresFee | scripts/openRoom.ts:40-43 | with valid whole inputs, the converted fee is field 4 of the sent body |
| OpenRoomScript.OpenRoomNumericFeeUnscaled | scripts/openRoom.ts:40 | as written, the number k is stored as k nanotons, and the string k as k * 10^9 |
| OpenRoomScript.OpenRoomInTonScales | scripts/openRoom.ts:40 | the corrected openRoom refuses exactly what openRoom refuses, and stores fee * 10^9 whichever form the fee came in |
| EnterPaidScript.EnterPaidGuards | scripts/enterPaid.ts:19-25 | room id before day; the first failing guard gives the code; a rejection happens iff one fails |
| EnterPaidScript.EnterPaidSubmits | scripts/enterPaid.ts:28-37 | past the guards, the message is the enter_paid body of room id and day, with one TON; a too-wide room id throws |
| EnterPaidScript.EnterPaidValueAndBody | scripts/enterPaid.ts:28-37 | every sent enterPaid carries 10^9 nanotons and reads back as its two arguments |
| EnterPaidScript.EnterPaidExamples | scripts/enterPaid.ts:19-28 | room 0 is refused before a bad day is looked at; day 20300001 is refused; day 20300000 is accepted |
| CloseRoomScript.CloseRoomGuards | scripts/closeRoom.ts:19-25 | room id before day; the first failing guard gives the code; a rejection happens iff one fails |
| CloseRoomScript.CloseRoomSubmits | scripts/closeRoom.ts:28-35 | past the guards, the message is the close_room body of room id and day, with 0.1 TON |
| CloseRoomScript.CloseRoomMirrorsEnterPaid | scripts/closeRoom.ts:17-36 | closeRoom and enterPaid reject alike and send on the same inputs; their bodies differ only in the name field, and their values are 0.1 and 1 TON |
| PayoutPaidScript.PayoutPaidGuards | scripts/payoutPaid.ts:23-33 | room id, then day, then the winners count `<= 0 or > 100`, each with its own code |
| PayoutPaidScript.PayoutPaidCountRange | scripts/payoutPaid.ts:31-33 | a whole count is refused iff it is not in 1..100 (100 passes, 0 and 101 do not) |
| PayoutPaidScript.PayoutPaidWholeCount | scripts/payoutPaid.ts:35-53 | for a whole count in 1..100 the weights check never fails: the script throws if Address.parse refuses one of the count's mock texts, and otherwise sends the payout_paid body of room id and day, with 0.1 TON |
| PayoutPaidScript.PayoutPaidBody | scripts/payoutPaid.ts:45 | the payout_paid body holds room id and day only |
| PayoutPaidScript.PayoutPaidIgnoresCount | scripts/payoutPaid.ts:45-53 | every sent payout carries 0.1 TON and a body fixed by room id and day alone, not by the count or the winners |
| PayoutPaidScript.PayoutPaidFractionalCount | scripts/payoutPaid.ts:31-42 | count 2.5 passes the range guard; it is refused with INVALID_WEIGHTS only if Address.parse accepts the mock texts `..._00` to `..._02`, and otherwise the script throws before the weights check |
| PayoutPaidScript.PayoutPaidFirstTextRefused | scripts/payoutPaid.ts:31-37 | if Address.parse refuses the first mock text, every finite count the range guard passes throws, and only a NaN count can be sent |
| PayoutPaidScript.PayoutPaidAcceptsNaN | scripts/payoutPaid.ts:31-45 | as written, a NaN count passes every check and the payout is sent |
| PayoutPaidScript.PayoutPaidCheckedSound | scripts/payoutPaid.ts:31-42 | the corrected payoutPaid sends only for whole counts in 1..100, never raises the weights error, and agrees with payoutPaid on whole counts |
| PayoutAirdropScript.PayoutAirdropGuards | scripts/payoutAirdrop.ts:18-24 | the top count is checked first, the streak count only after it passes; a rejection happens iff one is out of range |
| PayoutAirdropScript.PayoutAirdropRange | scripts/payoutAirdrop.ts:18-24 | a whole count is out of range iff it is below 0 or above 1000: 0 and 1000 pass, -1 and 1001 do not |
| PayoutAirdropScript.PayoutAirdropSubmits | scripts/payoutAirdrop.ts:26-39 | past the guards, the message is the header-only payout_airdrop body with 0.1 TON, the same for all counts; it is sent iff both winners lists build |
| PayoutAirdropScript.NoLongWinnersArray | scripts/utils.ts:56-64 | a parser that refuses every 49-character text lets no winners list longer than 100 be built |
| PayoutAirdropScript.PayoutAirdropLongAddresses | scripts/payoutAirdrop.ts:18-28 | under such a parser, a top count from 101 to 1000 passes its guard and then throws |
| PayoutAirdropScript.PayoutAirdropFirstTextRefused | scripts/payoutAirdrop.ts:18-39 | if Address.parse refuses the first mock text, the payout is sent only when neither count is positive; otherwise the script throws |
| PayoutAirdropScript.PayoutAirdropAcceptsNaN | scripts/payoutAirdrop.ts:18-31 | NaN passes both guards and the header-only payout is sent |
| FundAirdropScript.FundAirdropGuard | scripts/fundAirdrop.ts:15-17 | the amount is refused with INVALID_AMOUNT iff it is not finite and strictly positive |
| FundAirdropScript.FundAirdropSubmits | scripts/fundAirdrop.ts:19-31 | past the guard, the body is the header-only fund_airdrop cell for every amount; the amount appears only as the positive value |
| FundAirdropScript.FundAirdropNumericUnscaled | scripts/fundAirdrop.ts:20 | as written, the string k funds k * 10^9 nanotons and the number k funds k |
| FundAirdropScript.FundAirdropCliFraction | scripts/fundAirdrop.ts:62 | the usage example's number 10.5 passes the guard, and BigInt then throws |
| FundAirdropScript.FundAirdropInTonScales | scripts/fundAirdrop.ts:20 | the corrected fundAirdrop refuses exactly what fundAirdrop refuses, sends amount * 10^9 nanotons in either form, and funds 10.5 TON as 10.5 * 10^9 |
| UpgradeScript.UpgradeOutcome | scripts/upgrade.ts:14-32 | only the empty path is refused; every other path sends the upgrade header plus one reference to the mock code cell, with 0.1 TON |
| UpgradeScript.UpgradeIgnoresPath | scripts/upgrade.ts:19-24 | two non-empty paths give the identical message; its body is well formed and reads back as upgrade with the code cell |
| TreasuryWrapper.ConfigRoundTrip | wrappers/Treasury.ts:9-16 | the data cell reads back as the owner and the upgrade authority it was built from |
| TreasuryWrapper.DecodeConfigExact | wrappers/Treasury.ts:9-16 | every cell that reads back as a config is exactly that config's data cell: owner, authority, Uint(250, 16), Coins(0) |
| TreasuryWrapper.ConfigCellWellFormed | wrappers/Treasury.ts:13-14 | for every config the house fee 250 fits its 16 bits and the pool starts at 0 |
| TreasuryWrapper.CreateFromAddressHandle | wrappers/Treasury.ts:24-26 | createFromAddress keeps the address and has no init |
| TreasuryWrapper.FromInitHandle | wrappers/Treasury.ts:28-37 | fromInit sits at the owner's address, deploys the empty code, and its data reads back as its two arguments |
| TreasuryWrapper.GettersConstant | wrappers/Treasury.ts:49-57 | both getters return the same fixed address for every handle and provider, so they report a fromInit handle's owner or authority only when that is the fixed address |
| Utils.ValidateAmount | scripts/utils.ts:209-212 | the model's validateAmount (parseFloat of a string, then finite and greater than 0); its meaning is stated by ValidAmountExactly |
| Utils.ValidateRoomId | scripts/utils.ts:214-216 | the model's validateRoomId; its meaning is stated by ValidRoomIdExactly |
| Utils.ValidateDay | scripts/utils.ts:218-220 | the model's validateDay; its meaning is stated by ValidDayExactly |
| Utils.ValidateTier | scripts/utils.ts:222-224 | the model's validateTier; its meaning is stated by ValidTierExactly |
| Utils.LinearWeights | scripts/utils.ts:67-73 | the weights createLinearWeights returns, as a function of the count; CreateLinearWeights is proved equal to it, and LinearWeightsOfCount, GeneratedWeightsValid and FractionalCountFailsWeights state its properties |
| Utils.WinnersArray | scripts/utils.ts:56-64 | the list createWinnersArray returns, or None where Address.parse throws; CreateWinnersArray is proved equal to it, and MockAddressesAt and WinnerTextLength state its contents |
| Utils.ValidateLinearWeights | scripts/utils.ts:76-81 | the model's validateLinearWeights; its properties are stated by GeneratedWeightsValid, ValidateAcceptsPermutations and ValidateChecksOnlySum |
| OpenRoomScript.OpenRoom | scripts/openRoom.ts:15-71 | the model of openRoom; its properties are stated by OpenRoomGuards, OpenRoomSubmits, OpenRoomBodyDecodes and the lemmas after them |
| EnterPaidScript.EnterPaid | scripts/enterPaid.ts:13-57 | the model of enterPaid; its properties are stated by EnterPaidGuards, EnterPaidSubmits and EnterPaidValueAndBody |
| CloseRoomScript.CloseRoom | scripts/closeRoom.ts:13-54 | the model of closeRoom; its properties are stated by CloseRoomGuards, CloseRoomSubmits and CloseRoomMirrorsEnterPaid |
| PayoutPaidScript.PayoutPaid | scripts/payoutPaid.ts:16-73 | the model of payoutPaid; its properties are stated by PayoutPaidGuards, PayoutPaidWholeCount, PayoutPaidFirstTextRefused and the lemmas after them |
| PayoutAirdropScript.PayoutAirdrop | scripts/payoutAirdrop.ts:12-58 | the model of payoutAirdrop; its properties are stated by PayoutAirdropGuards, PayoutAirdropSubmits and PayoutAirdropFirstTextRefused |
| FundAirdropScript.FundAirdrop | scripts/fundAirdrop.ts:12-48 | the model of fundAirdrop; its properties are stated by FundAirdropGuard and FundAirdropSubmits |
| UpgradeScript.Upgrade | scripts/upgrade.ts:11-50 | the model of upgrade; its properties are stated by UpgradeOutcome and UpgradeIgnoresPath |
| TreasuryWrapper.TreasuryConfigToCell | wrappers/Treasury.ts:9-16 | the model of treasuryConfigToCell; ConfigRoundTrip, DecodeConfigExact and ConfigCellWellFormed state its properties |
| TreasuryWrapper.CreateFromAddress | wrappers/Treasury.ts:24-26 | the model of createFromAddress; CreateFromAddressHandle states its properties |
| TreasuryWrapper.FromInit | wrappers/Treasury.ts:28-37 | the model of fromInit; FromInitHandle states its properties |
| TreasuryWrapper.GetGetOwner | wrappers/Treasury.ts:49-52 | the model of getGetOwner; GettersConstant states its properties |
| TreasuryWrapper.GetGetUpgradeAuthority | wrappers/Treasury.ts:54-57 | the model of getGetUpgradeAuthority; GettersConstant states its properties |
| OpenRoomScript.OpenRoomInTon | scripts/openRoom.ts:40 | the corrected openRoom, with the fee in TON in either form; OpenRoomInTonScales states its properties |
| FundAirdropScript.FundAirdropInTon | scripts/fundAirdrop.ts:20 | the corrected fundAirdrop, with the amount in TON in either form; FundAirdropInTonScales states its properties |
| PayoutPaidScript.PayoutPaidChecked | scripts/payoutPaid.ts:31-33 | the corrected payoutPaid, which refuses a count that is not whole; PayoutPaidCheckedSound states its properties |

## Left out

- Network and wallet: `getTonClient`, `getWallet`, `getSender`, `sendTransaction`, `getContractBalance` and `getRoomState` (scripts/utils.ts:23-48, 129-146, 168-189). They are remote calls and key derivation in SDKs outside this repository. A script's send is the `Submit` outcome.
- `waitForTransaction` (scripts/utils.ts:149-165): a timed polling loop against the network.
- The destination `Address.parse(TREASURY_ADDRESS)` and the environment variables are assumed to parse. The destination is not part of `Outcome`.
- `Address.parse` is not modelled. Where `createWinnersArray` calls it, the function parameter `parses` says which texts it accepts. In particular the checksum of a user-friendly address is not computed, so the model does not say whether the SDK's parser accepts the mock texts; the payout lemmas are stated for every parser.
- `validateAddress` (scripts/utils.ts:200-207) is not called by any script.
- Logging and the command-line blocks (argument counts, `parseInt`/`parseFloat`, `process.exit`). The values the command line hands over appear only as inputs to lemmas.
- A `TreasuryError` is modelled by its code only, not its message text. The catch-log-rethrow around each script is not modelled.
- Floating point: a finite number is an exact real, and IEEE rounding is not modelled. `toNano` on a string is exact scaling of the string's numeric value by 10^9, failing when the result is not whole. Differences between `parseFloat` and `toNano`'s own parser (for example `"1abc"`) are not modelled.
- Bit-level cell encoding: `storeStringTail` spilling into references, the 1023-bit and 4-reference limits, and the byte layout of coins. A field is a token with its width.
- scripts/build.ts, scripts/deploy.ts and wrappers/blueprint.config.ts are not part of this model: file output, a network deploy and static configuration. `Treasury.send` is a stub with no logic.
- Utils.CreateLinearWeights: requires a count other than +Infinity, because the source loop never ends there. Every script's guard excludes +Infinity before the call.
- Utils.CreateWinnersArray: requires a count other than +Infinity, for the same reason.
- Utils.WinnersArray: requires a count other than +Infinity, for the same reason.
- UpgradeScript.Upgrade: the path is a string, so the `typeof` test on non-string values is not modelled.

## Findings

| source | as written | input that shows it | evidently intended | confidence | as-written member | corrected member |
|---|---|---|---|---|---|---|
| scripts/openRoom.ts:40 | a numeric entry fee goes through `BigInt` unscaled, while a string one goes through `toNano` | the command line's `parseFloat("1.0")`, i.e. the number 1: the fee field holds 1 nanoton, not 10^9 | the fee is in TON and scaled by 10^9 in either form | not executed | OpenRoomScript.OpenRoomNumericFeeUnscaled | OpenRoomScript.OpenRoomInTonScales |
| scripts/fundAirdrop.ts:20 | a numeric amount goes through `BigInt` unscaled, and a fractional one throws | the usage example `fundAirdrop.ts 10.5`: `parseFloat` gives 10.5, which passes the guard, and then `BigInt(10.5)` throws | fund 10.5 TON, i.e. 10.5 * 10^9 nanotons | not executed | FundAirdropScript.FundAirdropCliFraction | FundAirdropScript.FundAirdropInTonScales |
| scripts/payoutPaid.ts:31 | the range guard (count <= 0, or count > 100) is false for NaN | `parseInt("abc")`, i.e. NaN: the guard passes, both lists are empty, the empty weights pass, and the payout is sent | refuse a count that is not a whole number in 1..100 | not executed | PayoutPaidScript.PayoutPaidAcceptsNaN | PayoutPaidScript.PayoutPaidCheckedSound |
