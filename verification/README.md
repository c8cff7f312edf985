# TonTip core, modelled in Dafny

TonTip is a Telegram mini-app and bot that let a user connect a TON wallet and send
value-bearing messages to small on-chain account programs. This project models:

- **The three account programs as their sandbox test suites pin them down.**
  - TipBot forwards tips and counts them in `totalTips`.
  - RewardContract is a pooled treasury that pays a fixed 0.01 TON reward and lets its owner sweep the rest.
  - HelloWorld keeps a counter raised by `Add`.

  The contract source is not part of this model, so each account's behaviour is what its tests assert.
  - Each account is a class. The persistent fields are the class's fields. `balance` is in nanotons (1 TON = 10^9).
  - Each account keeps a log of the outbound transfers it issued.
  - Each receive handler returns whether the message was accepted. A rejected message leaves every field unchanged (`unchanged(this)`).
  - TipBot and RewardContract keep a conservation invariant: balance plus everything transferred out equals everything carried in.
  - For TipBot, `totalTips` always equals the sum of the forwarded transfers.
  - Every `it(...)` test case is restated as a verified method in a `...Scenarios` module. Each one builds its own account, sends the same messages, and proves the same expectations. The suites' `beforeEach` blocks are the `Deployed...` methods.
  - The getters (`GetTotalTips`, `GetOwner`, `GetRewardAmount`, `GetCounter`, `GetId`) read the account's fields; the scenarios read the state through them.
  - `owner`, `rewardAmount` and `id` are `const` fields. The type system therefore guarantees that no receive handler changes them.
- **The quiz page's session logic** (`mini-app2/src/components/QuizTakingPage.tsx`):
  - the `m:ss` countdown display;
  - scoring and the perfect-score reward;
  - the per-quiz progress record;
  - navigation over the answer array. The two browser stores are a `map` and a `seq` held by the page object.
- **The two client pre-submit guards**:
  - the HelloWorld page's `onAddClick`: wallet check, then range check, then one `Add` transaction;
  - the tip form's `handleSendTip`: field and wallet checks, then one send, clearing the form only on success.

| file | module | models |
|---|---|---|
| common.dfy | `Common` | `Option`, `Uint32`, `Max` |
| ledger.dfy | `Ledger` | addresses, message context, transfer log and its sums |
| tip_bot.dfy / tip_bot_tests.dfy | `TipBotAccount` / `TipBotScenarios` | TipBot and tests/TipBot.spec.ts |
| reward_contract.dfy / reward_contract_tests.dfy | `RewardTreasury` / `RewardTreasuryScenarios` | RewardContract and tests/RewardContract.spec.ts |
| hello_world.dfy / hello_world_tests.dfy | `HelloWorldAccount` / `HelloWorldScenarios` | HelloWorld and tests/HelloWorld.spec.ts |
| time_format.dfy | `TimeFormat` | `formatTime` |
| quiz_scoring.dfy | `QuizScoring` | score, reward, progress record |
| quiz_session.dfy | `QuizSession` | the quiz page's state and handlers |
| hello_world_page.dfy | `HelloWorldPage` | `onAddClick` |
| tip_bot_interaction.dfy | `TipBotInteraction` | `handleSendTip` |

**Reserve.** An account keeps a reserve: a minimum balance for its own storage and processing, which it never pays out. The model takes the reserve as a constructor parameter.
- The RewardContract tests only hold together for a reserve between 0.06 and 0.14 TON (`RewardSuiteReserve`):
  - a claim on a fresh account, holding 0.05 TON plus 0.01 TON attached, must fail;
  - so must the owner's withdrawal from a fresh account;
  - a claim after a 0.1 TON deposit must be paid.
- Each threshold and acceptance rule rests on a test:
  - **Reward payout threshold.** A claim is paid only when `balance + attached value - reserve >= rewardAmount`. The fresh-account claim test (tests/RewardContract.spec.ts:132-149) needs the reserve counted: the account then holds 0.06 TON, more than the reward, and the claim must still fail.
  - **Withdraw-all threshold.** `WithdrawAll` likewise needs more than the reserve: the owner's withdrawal from a fresh account must fail (tests/RewardContract.spec.ts:279-295).
  - **`Add(0)`.** `Add(0)` is accepted and leaves the counter unchanged: the HelloWorld test draws amounts from 0 to 99 and expects every send to succeed (tests/HelloWorld.spec.ts:50, 65-69).
  - **Out-of-range `Add` amounts.** Amounts above `0xFFFFFFFF` cannot be carried by the `uint32` field at all, so the `Add` body has type `Uint32`.
  - **Deposits through `ClaimReward`.** The tests deposit with `ClaimReward`. When such a "deposit" is accepted, the model also pays the reward to the depositor.

## Model

| member | source | states |
|---|---|---|
| TipBotAccount.TipBot.FromInit | tests/TipBot.spec.ts:16 | a TipBot initialised with an owner starts with `totalTips == 0`, no balance, no transfers, not yet deployed |
| TipBotAccount.TipBot.ReceiveDeploy | tests/TipBot.spec.ts:18-34 | `Deploy` always succeeds, marks the account deployed, keeps the attached value, and changes neither the total nor the transfer log |
| TipBotAccount.TipBot.ReceiveTip | tests/TipBot.spec.ts:58-91 | a tip succeeds exactly when its amount is non-zero and covered above the reserve. On success: exactly one transfer of `amount` to the recipient, `totalTips` up by exactly `amount`, the recipient's received total strictly up, and the balance never below the reserve. On failure nothing changes. `totalTips` stays equal to the sum of all forwarded transfers |
| TipBotScenarios.DeployedTipBot | tests/TipBot.spec.ts:11-35 | `fromInit(deployer)` plus a 0.05 TON `Deploy` yields a deployed account owned by the deployer with total 0 |
| TipBotAccount.TipBot.GetTotalTips | tests/TipBot.spec.ts:43 | the `getTotalTips` getter reports the sum of every amount the account has forwarded |
| TipBotScenarios.Deploys | tests/TipBot.spec.ts:37-40 | the `Deploy` from the deployer is accepted and deploys an account owned by the deployer |
| TipBotScenarios.InitializesWithZeroTotalTips | tests/TipBot.spec.ts:42-45 | the getter reports 0 tips right after deployment |
| TipBotScenarios.SendsTipAndUpdatesTotal | tests/TipBot.spec.ts:47-92 | a 1.0 TON tip carrying 1.2 TON is accepted, forwards exactly one 1.0 TON transfer to the recipient, raises the total by 1.0 TON, and raises what the recipient received |
| TipBotScenarios.HandlesMultipleTips | tests/TipBot.spec.ts:94-132 | tips of 0.5 and 1.5 TON from two senders leave the total at their sum |
| TipBotScenarios.RejectsZeroAmountTips | tests/TipBot.spec.ts:134-156 | a zero-amount tip fails, forwards nothing and leaves the total at 0 |
| TipBotScenarios.TipsAccumulate | tests/TipBot.spec.ts:94-132 | any number of non-zero, sufficiently funded tips from any senders are all accepted, and the total equals the sum of their amounts |
| RewardTreasury.RewardContract.FromInit | tests/RewardContract.spec.ts:20 | the owner comes from the init argument, the reward is fixed at 10_000_000 nanotons, and there is no balance and no transfer |
| RewardTreasury.RewardContract.ReceiveDeploy | tests/RewardContract.spec.ts:22-38 | `Deploy` always succeeds and its attached value stays in the account |
| RewardTreasury.RewardContract.ReceiveClaimReward | tests/RewardContract.spec.ts:81-149 | the attached value is deposited first. The claim is paid exactly when the account can then pay `rewardAmount` above its reserve. When paid, exactly `rewardAmount` goes to the sender, the balance drops by that amount against the deposit, and the balance stays at or above the reserve. Otherwise the message fails and nothing, the deposit included, changes |
| RewardTreasury.RewardContract.ReceiveWithdrawAll | tests/RewardContract.spec.ts:151-230 | succeeds exactly when the sender is the owner and something lies above the reserve. On success everything above the reserve goes to the owner. A non-owner fails whatever the balance, and a failure changes nothing |
| RewardTreasuryScenarios.DeployedRewardContract | tests/RewardContract.spec.ts:13-39 | `fromInit(deployer)` plus a 0.05 TON `Deploy` yields a deployed account owned by the deployer |
| RewardTreasury.RewardContract.GetOwner | tests/RewardContract.spec.ts:47 | the `getOwner` getter returns the owner fixed at init |
| RewardTreasury.RewardContract.GetRewardAmount | tests/RewardContract.spec.ts:48 | the `getRewardAmount` getter always returns 0.01 TON |
| RewardTreasuryScenarios.DeploysSuccessfully | tests/RewardContract.spec.ts:41-44 | the `Deploy` from the deployer is accepted, deploys the account, and leaves the 0.05 TON it carried in the balance |
| RewardTreasuryScenarios.InitializesOwnerAndReward | tests/RewardContract.spec.ts:46-52 | the getters return the deployer and 0.01 TON |
| RewardTreasuryScenarios.AcceptsDeposit | tests/RewardContract.spec.ts:54-79 | a `ClaimReward` carrying 1.0 TON is accepted and the account keeps the deposit less the reward |
| RewardTreasuryScenarios.ClaimsRewardWhenFunded | tests/RewardContract.spec.ts:81-130 | after a 0.1 TON deposit, another user's claim succeeds, pays exactly the reward to that user, and lowers the balance by the reward against what the claim carried |
| RewardTreasuryScenarios.RejectsClaimWhenUnfunded | tests/RewardContract.spec.ts:132-149 | on a fresh account a claim fails and neither the balance nor the transfer log moves |
| RewardTreasuryScenarios.OwnerWithdrawsAll | tests/RewardContract.spec.ts:151-199 | after a 1.0 TON deposit the owner's withdrawal succeeds, pays the owner everything above the reserve, and leaves exactly the reserve |
| RewardTreasuryScenarios.RejectsWithdrawFromNonOwner | tests/RewardContract.spec.ts:201-230 | a non-owner's withdrawal from a funded account fails and the balance is unchanged |
| RewardTreasuryScenarios.HandlesMultipleDepositsAndClaims | tests/RewardContract.spec.ts:232-277 | with two deposits and two claims, all four claims are paid the reward, in order |
| RewardTreasuryScenarios.RejectsWithdrawWithoutFunds | tests/RewardContract.spec.ts:279-295 | the owner's withdrawal from a fresh account fails and nothing moves |
| HelloWorldAccount.HelloWorld.FromInit | tests/HelloWorld.spec.ts:14 | `fromInit(id, counter)` sets both fields; the account is not yet deployed |
| HelloWorldAccount.HelloWorld.ReceiveEmpty | tests/HelloWorld.spec.ts:18-31 | an empty-body message succeeds, deploys the account, and leaves the counter alone |
| HelloWorldAccount.HelloWorld.ReceiveAdd | tests/HelloWorld.spec.ts:54-75 | `Add(amount)` from any sender succeeds for every `uint32` amount, 0 included, and the counter becomes exactly the old counter plus `amount` |
| HelloWorldAccount.HelloWorld.GetCounter | tests/HelloWorld.spec.ts:46 | the `counter` getter returns the current counter |
| HelloWorldAccount.HelloWorld.GetId | mini-app2/src/components/HelloWorldPage.tsx:37 | the `id` getter returns the id fixed at init |
| HelloWorldScenarios.DeployedHelloWorld | tests/HelloWorld.spec.ts:11-31 | `fromInit(0, 0)` plus an empty-body message deploys with id 0 and counter 0 |
| HelloWorldScenarios.Deploys | tests/HelloWorld.spec.ts:34-37 | deployment succeeds and the getters read 0 and 0 |
| HelloWorldScenarios.IncreasesCounter | tests/HelloWorld.spec.ts:39-76 | in the test's loop, each fresh sender's `Add` succeeds and the counter read after equals the counter read before plus the amount. At the end the counter is the sum of all amounts |
| TimeFormat.FormatTime | mini-app2/src/components/QuizTakingPage.tsx:42-46 | the display is `minutes:ss`. The minutes field is unpadded: longer than one digit, it never starts with 0. The seconds field is two digits and below 60, and minutes * 60 + seconds read back is the input |
| TimeFormat.FormatTimeInjective | mini-app2/src/components/QuizTakingPage.tsx:42-46 | two different numbers of seconds never share a display |
| TimeFormat.FormatTimeUnderTenMinutes | mini-app2/src/components/QuizTakingPage.tsx:42-46 | below ten minutes the display is exactly four characters |
| TimeFormat.NatToString | mini-app2/src/components/QuizTakingPage.tsx:45 | `toString()` of a whole number: at least one decimal digit, starting with 0 only for 0, and one digit exactly when the number is below 10 |
| TimeFormat.PadStart2 | mini-app2/src/components/QuizTakingPage.tsx:45 | `padStart(2, '0')` of a digit string: all digits, and two characters long unless the text is already longer |
| TimeFormat.PadStart2Prefixes | mini-app2/src/components/QuizTakingPage.tsx:45 | padding only puts zeros in front: the original text ends the result unchanged |
| TimeFormat.ParseNatToString | mini-app2/src/components/QuizTakingPage.tsx:43-45 | the decimal text of a number denotes that number |
| TimeFormat.ParsePadStart2 | mini-app2/src/components/QuizTakingPage.tsx:45 | zero-padding the seconds to two digits does not change their value |
| QuizScoring.Score | mini-app2/src/components/QuizTakingPage.tsx:80-86 | the score of a submission is between 0 and the number of questions |
| QuizScoring.ScoreCountsCorrectAnswers | mini-app2/src/components/QuizTakingPage.tsx:80-86 | the score is the number of indices whose answer equals the question's `correctAnswer`; a missing answer never counts |
| QuizScoring.PerfectScoreIffAllCorrect | mini-app2/src/components/QuizTakingPage.tsx:82-86 | the score equals the number of questions if and only if every question is answered correctly |
| QuizScoring.CountCorrect | mini-app2/src/components/QuizTakingPage.tsx:80-86 | the counting loop returns exactly the score |
| QuizScoring.RewardOnlyForPerfectScore | mini-app2/src/components/QuizTakingPage.tsx:97 | a result earns the quiz's full reward when every answer is correct, and 0 otherwise |
| QuizScoring.EarnedReward | mini-app2/src/components/QuizTakingPage.tsx:97 | a perfect score earns the quiz's reward; any other score earns 0 |
| QuizScoring.FreshProgress | mini-app2/src/components/QuizTakingPage.tsx:105-111 | the record a quiz starts from: this quiz's id, 0 attempts, best score 0, not completed, reward not claimed |
| QuizScoring.StoredOrFresh | mini-app2/src/components/QuizTakingPage.tsx:105-111 | a stored record for the quiz is taken as it is; without one, the fresh record for this quiz is used |
| QuizScoring.RecordAttempt | mini-app2/src/components/QuizTakingPage.tsx:113-115 | an attempt adds exactly one to `attempts`. `bestScore` becomes the larger of the old best and this score, so it never decreases. `completed` says whether this attempt was perfect. `quizId` and `rewardClaimed` are kept |
| QuizScoring.ReplayFromFresh | mini-app2/src/components/QuizTakingPage.tsx:105-118 | from a missing record (0 attempts, best 0, not completed, reward unclaimed), any run of attempts leaves `attempts` equal to their number and `bestScore` equal to the highest score reached. `completed` reflects the last attempt only, and the reward is never marked claimed |
| QuizScoring.BestScoreMonotone | mini-app2/src/components/QuizTakingPage.tsx:114 | further attempts never lower the best score |
| QuizSession.Unanswered | mini-app2/src/components/QuizTakingPage.tsx:28 | a fresh answer array has one entry per question, each -1 |
| QuizSession.ResultOf | mini-app2/src/components/QuizTakingPage.tsx:92-99 | the saved result carries the quiz id, the answers and the number of questions; its score is the number of correctly answered questions; it earns the quiz's full reward when every answer is correct and 0 otherwise |
| QuizSession.QuizTakingPage.constructor | mini-app2/src/components/QuizTakingPage.tsx:14-22 | the page starts with no quiz, index 0, no answers, no selection, not completed, score 0, not started, over the existing stores |
| QuizSession.QuizTakingPage.Load | mini-app2/src/components/QuizTakingPage.tsx:24-31 | a found quiz gets one -1 answer per question and `estimatedTime * 60` seconds; a missing quiz changes nothing |
| QuizSession.QuizTakingPage.SelectAnswer | mini-app2/src/components/QuizTakingPage.tsx:48-50 | the picked option becomes the pending selection |
| QuizSession.QuizTakingPage.SubmitQuiz | mini-app2/src/components/QuizTakingPage.tsx:76-126 | does nothing without a quiz. Otherwise it scores the given answers, or else the stored ones, and marks the quiz completed. It replaces only this quiz's progress record with the attempt folded in and appends exactly one result at the end of the results store |
| QuizSession.QuizTakingPage.NextQuestion | mini-app2/src/components/QuizTakingPage.tsx:52-66 | does nothing without a selection. Otherwise it writes the selection at the current index only and clears it. It then advances by exactly one when not on the last question, and on the last question submits the updated answers. The index stays within the questions and every earlier question stays answered |
| QuizSession.QuizTakingPage.PreviousQuestion | mini-app2/src/components/QuizTakingPage.tsx:68-74 | away from the first question it steps back exactly one and restores the answer given there, which is a real option, never -1. On the first question it does nothing |
| QuizSession.QuizTakingPage.RestartQuiz | mini-app2/src/components/QuizTakingPage.tsx:132-141 | back to index 0 with every answer -1, no selection, score 0, not completed or started, and the full time allowance; the stores are untouched |
| HelloWorldPage.OutOfRange | mini-app2/src/components/HelloWorldPage.tsx:63 | NaN passes the range check; an integral amount fails it exactly when it lies outside 1..0xFFFFFFFF |
| HelloWorldPage.AddTransaction | mini-app2/src/components/HelloWorldPage.tsx:83-92 | the transaction holds exactly one message: 0.05 TON with an `Add(amount)` body to the HelloWorld address, valid until the current second + 600 |
| HelloWorldPage.ToBigInt | mini-app2/src/components/HelloWorldPage.tsx:75 | converting the amount succeeds exactly for integral numbers and preserves their value |
| HelloWorldPage.GuardedAmountFitsUint32 | mini-app2/src/components/HelloWorldPage.tsx:63-76 | an amount that passes the range check and converts lies in 1..0xFFFFFFFF, the `uint32` range of `Add` |
| HelloWorldPage.AddForm.constructor | mini-app2/src/components/HelloWorldPage.tsx:16-21 | the form starts with amount 1, an empty status, and not loading |
| HelloWorldPage.AddForm.OnAddClick | mini-app2/src/components/HelloWorldPage.tsx:57-109 | without a wallet only the connect prompt is shown, whatever the amount. With a wallet, an out-of-range amount only shows the range prompt. Either way nothing is sent and loading is untouched. Past both guards loading always ends false. An integral amount sends exactly one transaction with one 0.05 TON message carrying `Add(amount)` to the HelloWorld address, valid until now + 600 s, and the status reports what the wallet did |
| HelloWorldPage.ClickedAddReachesCounter | mini-app2/src/components/HelloWorldPage.tsx:73-92 | the transaction a valid click builds, delivered to a HelloWorld account, raises its counter by exactly the typed amount |
| TipBotInteraction.CheckTip | mini-app/src/components/TipBotInteraction/TipBotInteraction.tsx:17-25 | an empty amount or recipient stops the send first. Only then does a missing wallet stop it. The send proceeds exactly when all three are present |
| TipBotInteraction.TipForm.constructor | mini-app/src/components/TipBotInteraction/TipBotInteraction.tsx:12-14 | the form starts with empty fields and not loading |
| TipBotInteraction.TipForm.HandleSendTip | mini-app/src/components/TipBotInteraction/TipBotInteraction.tsx:16-39 | a failed guard only shows its alert: nothing is sent and loading is untouched. Otherwise exactly one tip is requested with the connected user as sender. Success clears both fields, failure keeps them, and loading ends false either way |

## Left out

- **Contract internals.** Gas and fees, TVM execution, bounced messages, and the exact storage reserve are not modelled. The reserve is a parameter. The `DeployOk` reply that deployment may send back is not modelled either, because no test observes it.
- **Unasserted contract behaviour.** The model does not reject invalid recipient addresses, because addresses are opaque and no test sends an invalid one. It also does not model counter overflow.
- TipBotAccount.TipBot.ReceiveTip: also rejects a tip the balance cannot cover above the reserve, by analogy with the reward payout threshold; no test exercises this. The `sender` field of `TipMessage` is carried but has no effect, because no test shows one.
- **Effects on other accounts.** Recipients' balances are not modelled. What an address received is the sum of the log's transfers to it.
- **Timers and polling.** The quiz countdown timer and its automatic submission are not modelled; `SubmitQuiz` with no answers given is the path that automatic submission takes. Also left out: the page's 10-second refresh of contract data, and the 3-second refresh after sending.
- **Quiz numbers.** `estimatedTime` is taken in whole minutes, so `timeLeft` and `formatTime`'s argument are whole seconds; `formatTime` of a fractional number is not modelled. The reward amount is a real number of TON, as the page displays it.
- **Dates.** `completedAt` and `lastAttempt` (`new Date()`) are not modelled.
- **Browser stores.** localStorage and JSON (de)serialisation are not modelled. The stores are fields of the page object.
- **Display arithmetic.** The progress percentage, the 0.7 "good score" threshold and the percentage rounding are floating-point display maths and are left out.
- **Rendering-only state.** The rendering itself is left out, and so are `startQuiz` and the explanation toggle, which only flip display flags.
- QuizSession.QuizTakingPage.Load: models the effect's first run on a page with no quiz loaded. A re-run for a different quiz id on the same mounted page is not modelled. The page links only to the quiz list (mini-app2/src/components/QuizTakingPage.tsx:148, 166, 260) and to this quiz's claim page (243-249). None of them changes the quiz id while the page stays mounted, so the id changes only across mounts.
- QuizSession.QuizTakingPage.NextQuestion: requires a loaded quiz with at least one question, because the page only shows the button after rendering the current question.
- **Intermediate UI states.** The status texts shown while sending ("Preparing transaction...", "Sending transaction...") are not modelled, and neither is the moment `isLoading` is true. Only the state after the handler returns is stated.
- HelloWorldPage.AddForm.OnAddClick: for a non-integral amount or NaN, the status text uses a fixed stand-in for the engine's RangeError message. An infinite amount is covered by a large finite one, since both fail the range check the same way.
- **Tip request encoding.** The tip form's request carries the typed texts. `toNano`, `Address.parse`, the cell encoding and the tip transaction built in mini-app/src/hooks/useTipBotContract.ts are not part of this model. A failure in any of them is one of the `Failed` outcomes.
- **Foreign calls.** The wallet's `sendTransaction`, `TonClient` getter calls and `getQuizById` are foreign. Their results are parameters.
- **Out of scope.** The Telegram bot, the deployment scripts and the configuration files are not part of this model.
