# Onboarding progression of the Subsocial web app, in Dafny

This project models the onboarding provider of the Subsocial web app and two
small helper modules beside it:

- `onboarding.dfy` (module `Onboarding`): `OnBoardingProvider`. From the
  account's login state, its free balance and whether it owns spaces, it
  decides which onboarding step the user is on (`Login`, `GetTokens`,
  `CreateSpace`, `Finish`), whether the onboarding bar is shown, and whether
  the account is recorded under the store key `df.onboarded`. Class
  `OnBoarding` holds the provider's React state (`currentStep`,
  `showOnBoarding`, `actions`), the stored value, the mount-time snapshot
  `onBoardedAccounts`, and the closure of the latest effect run: the pending
  `step`, the captured address and `noOnBoarded`, and the open
  subscriptions. Its methods are the effect run, the balance callback, the
  ownership callback, the cleanup and the two context setters. `Context` is
  the read accessor with the `/get-started` override. The methods are called
  one after another, in the order React and the chain API would call them.
  The scenario methods at the end of the module allocate a fresh provider,
  drive it through one such sequence and state what it publishes.
- `utils.dfy` (module `Utils`): `toShortAddress`, `gtZero`, `isVisible`,
  `isHidden` and the constants `ZERO` and `ONE`.
- `navigation_editor.dfy` (module `NavigationEditor`): the `NavTab` record,
  `getMaxId`, `defaultTab`, and adding or removing a tab on the form's
  `navTabs` list.
- `js_values.dfy` (module `JsValues`): optional values, the truthiness of an
  optional string, and the substring test of `String.prototype.includes`.

## Behaviour of the code that the model keeps

The model does what the code does, including these cases where the code
itself suggests a different intention:

- The reader declares the stored value as a list of addresses
  (`useState<string[]>`, OnBoardingContex.tsx:47). The writer stores a single
  address string instead (`store.set(KEY, address)`, line 69). On a string,
  `includes` is a substring test, so recording a second account forgets the
  first (`Onboarding.SingleRecordForgetsOthers`).
- The pending `step` is a variable of the effect's closure (line 76). Each
  effect run resets it to `Finish`, and the callbacks (lines 67 and 84) only
  ever move it to `GetTokens` or `CreateSpace`; nothing re-derives it from the
  latest balance and space list. Once a zero balance has been seen in a run, a
  later funded balance does not undo it (`Onboarding.ZeroThenFundedRun`), and
  a run that has reached `CreateSpace` stays there when the account later
  owns a space (see Findings).
- Callbacks carry no guard against running after their effect has been
  replaced. Cancellation is only the two unsubscribe calls (lines 92-95), and
  `unsubBlog` is overwritten by every ownership subscription (line 65), so
  only the last one is cancelled (`Onboarding.OnBoarding.Cleanup`,
  `leakedOwnerSubs`).
- Every balance event opens an ownership subscription (line 86), zero balance
  or not, and passes `isBalanse` along.

`JsValues.Truthy` and `JsValues.Includes` are not members of the source. They
give the JavaScript meaning of `!address`, of `_address || ''` and of
`String.prototype.includes`, which the modelled members use.

## Model

| member | source | states |
|---|---|---|
| `Onboarding.StepValue` | src/components/onboarding/OnBoardingContex.tsx:35-40 | each step is a number below 4 |
| `Onboarding.StepValueOrder` | src/components/onboarding/OnBoardingContex.tsx:35-40 | the numbering is injective and ascends Login < GetTokens < CreateSpace < Finish |
| `Onboarding.Recorded` | src/components/onboarding/OnBoardingContex.tsx:47-49 | `onBoardedAccounts.includes(address)`: nothing stored records nobody; a stored list records exactly its members; a stored non-empty string records an address of its own length exactly when it is that address, and never an address longer than itself |
| `JsValues.IncludesSameLength` | src/components/onboarding/OnBoardingContex.tsx:49 | for two strings of equal length, `includes` holds exactly when they are equal |
| `Onboarding.NoOnBoarded` | src/components/onboarding/OnBoardingContex.tsx:47-49 | an absent or empty address is always "not onboarded"; otherwise "not onboarded" holds exactly when the stored value does not record the address |
| `Onboarding.DeriveStep` | src/components/onboarding/OnBoardingContex.tsx:64-87 | reference outcome of one balance then one ownership event: never Login; GetTokens iff the balance is zero; CreateSpace iff funded with no spaces; Finish iff funded with spaces |
| `Onboarding.SingleRecordForgetsOthers` | src/components/onboarding/OnBoardingContex.tsx:47-69 | after the store holds address B, B counts as onboarded, and every other address of B's length counts as not onboarded |
| `Onboarding.PendingAfterOwnership` | src/components/onboarding/OnBoardingContex.tsx:66-70 | the ownership callback's new pending step: CreateSpace for a funded snapshot with no spaces, the old step otherwise; it is Finish only if the old step was |
| `Onboarding.CreateSpaceIsSticky` | src/components/onboarding/OnBoardingContex.tsx:66-70 | from CreateSpace every snapshot leaves the step at CreateSpace, so a funded account that now owns a space is not moved to Finish as `DeriveStep` would |
| `Onboarding.RederivedStep` | src/components/onboarding/OnBoardingContex.tsx:66-70 | corrected step: derived from the snapshot alone, equal to `DeriveStep(!isBalance, spacesEmpty)`, Finish exactly for a funded account with spaces |
| `Onboarding.RederivedStepForgetsHistory` | src/components/onboarding/OnBoardingContex.tsx:66-70 | a funded account owning a space reaches Finish under the corrected step from any earlier step, but under the code only from Finish |
| `Onboarding.OnBoarding.constructor` | src/components/onboarding/OnBoardingContex.tsx:45-53 | the initial state: step Login, actions false, shown iff `noOnBoarded` for the mount-time address and stored value, no subscriptions |
| `Onboarding.OnBoarding.EffectRun` | src/components/onboarding/OnBoardingContex.tsx:55-90 | logged out: publishes Login and opens nothing; API not ready: publishes GetTokens and opens nothing; otherwise the pending step resets to Finish, the address and `noOnBoarded` are captured, and a balance subscription opens exactly when the address is present; the shown flag and the store are untouched |
| `Onboarding.OnBoarding.BalanceEvent` | src/components/onboarding/OnBoardingContex.tsx:80-87 | a balance printing exactly `"0"` moves the pending step to GetTokens, anything else leaves it; the step never returns to Finish; one ownership subscription is added that captured "balance non-zero"; nothing is published |
| `Onboarding.OnBoarding.OwnershipEvent` | src/components/onboarding/OnBoardingContex.tsx:64-73 | a funded subscription seeing no spaces moves the step to CreateSpace; the step is published with `showOnBoarding == (step != Finish)`; the store is written only in the Finish branch, only when not onboarded at mount, and then holds exactly the captured address |
| `Onboarding.OnBoarding.Cleanup` | src/components/onboarding/OnBoardingContex.tsx:92-95 | the balance subscription and the last ownership subscription are closed; the run's earlier ownership subscriptions stay open and are counted in `leakedOwnerSubs`; the published state and the store are unchanged |
| `Onboarding.OnBoarding.SetCurrentStep` | src/components/onboarding/OnBoardingContex.tsx:104-105 | the context setter replaces the current step |
| `Onboarding.OnBoarding.SetAction` | src/components/onboarding/OnBoardingContex.tsx:103-106 | the context setter replaces the actions flag |
| `Onboarding.OnBoarding.Context` | src/components/onboarding/OnBoardingContex.tsx:99-107 | on `/get-started` the bar is never shown; elsewhere the stored flag is exposed; step and actions pass through |
| `Onboarding.LoggedOutRun` | src/components/onboarding/OnBoardingContex.tsx:45-60 | a fresh provider whose user is logged out publishes Login, opens no subscription, and shows the bar unless the address is already recorded |
| `Onboarding.ApiNotReadyRun` | src/components/onboarding/OnBoardingContex.tsx:58-62 | logged in before the API is ready publishes GetTokens and opens no subscription |
| `Onboarding.NoAddressRun` | src/components/onboarding/OnBoardingContex.tsx:76-79 | with no address, no subscription opens, nothing is published or stored, and the bar stays shown |
| `Onboarding.FreshRunPublishes` | src/components/onboarding/OnBoardingContex.tsx:55-90 | a fresh run with one balance then one ownership event publishes `DeriveStep(balance == "0", spaces empty)`, shows the bar iff that is not Finish, and stores the address iff the step is Finish and the address was not recorded |
| `Onboarding.ZeroThenFundedRun` | src/components/onboarding/OnBoardingContex.tsx:64-87 | zero balance, then a funded balance, then a non-empty space list still publishes GetTokens (CreateSpace for an empty list), unlike `DeriveStep`; nothing is stored |
| `Onboarding.MountedContext` | src/components/onboarding/OnBoardingContex.tsx:45-103 | before any effect the context exposes Login, no actions, and the bar only off `/get-started` for an address not recorded |
| `Onboarding.CreateSpaceThenSpaceOwned` | src/components/onboarding/OnBoardingContex.tsx:55-96 | a funded account seeing no space publishes CreateSpace, a change of `currentStep` that makes React clean up and re-run the effect (line 96); the re-run publishes CreateSpace without changing `currentStep`, so it is not re-run; when its subscription then sees a space, CreateSpace is published again and the store is unchanged |
| `Utils.AddressText` | src/components/utils/index.tsx:77 | an absent or empty address gives the empty string, a present one is itself |
| `Utils.ToShortAddress` | src/components/utils/index.tsx:76-80 | the result has at most 13 characters; a falsy address gives ""; up to 13 characters are unchanged; longer ones become the first 6, an ellipsis and the last 6 |
| `Utils.ShortAddressLength` | src/components/utils/index.tsx:79 | the result is as long as the address, capped at 13 |
| `Utils.ShortAddressIdempotent` | src/components/utils/index.tsx:79 | shortening a shortened address changes nothing |
| `Utils.ShortAddressKeepsEnds` | src/components/utils/index.tsx:79 | two long addresses shorten alike exactly when their first 6 and last 6 characters agree |
| `Utils.GtZero` | src/components/utils/index.tsx:82-95 | absent gives false; a number gives `n > 0`; a string is false when parsing fails and otherwise compares the parsed value with ZERO; a big integer is compared with ZERO |
| `Utils.GtZeroFormsAgree` | src/components/utils/index.tsx:82-95 | a string parsing to v, the integer v and the number v give the same answer |
| `Utils.Denotes` | src/components/utils/index.tsx:82-95 | the quantity an amount stands for: none when absent or when its text does not parse, otherwise the number, the parsed value or the integer |
| `Utils.GtZeroMeansPositive` | src/components/utils/index.tsx:82-95 | `gtZero` holds exactly when the amount denotes a quantity and that quantity is positive |
| `Utils.IsVisible` | src/components/utils/index.tsx:73 | a struct that is not hidden is visible; a hidden one is visible iff it is not the user's own |
| `Utils.IsHidden` | src/components/utils/index.tsx:74 | the negation of `IsVisible`, true exactly for the user's own hidden struct |
| `NavigationEditor.MaxTab` | src/components/stories/navigation-editor/NavigationEditor.tsx:64 | for a non-empty list, a tab of the list whose id is at least every id, and the last such tab on a tie |
| `NavigationEditor.GetMaxId` | src/components/stories/navigation-editor/NavigationEditor.tsx:63-66 | for a non-empty list, the id of some tab and at least every tab's id |
| `NavigationEditor.DefaultTab` | src/components/stories/navigation-editor/NavigationEditor.tsx:68 | id is the maximum plus 1, hence larger than every id and not in the list; empty title and description, not hidden, type `by-tag`, empty tag list |
| `NavigationEditor.AddTab` | src/components/stories/navigation-editor/NavigationEditor.tsx:185 | the list grows by one, the earlier tabs are unchanged, the last is the default tab |
| `NavigationEditor.RemoveTab` | src/components/stories/navigation-editor/NavigationEditor.tsx:175 | the list shrinks by one; tabs before the index stay, tabs after it shift down; the multiset loses exactly the removed tab |
| `NavigationEditor.AddTabKeepsIdsDistinct` | src/components/stories/navigation-editor/NavigationEditor.tsx:68 | adding a tab to a list with distinct ids keeps them distinct |
| `NavigationEditor.AddTabRaisesMaxId` | src/components/stories/navigation-editor/NavigationEditor.tsx:63-68 | after an add the maximum id is the old maximum plus 1, so the next add gets a fresh id too |
| `NavigationEditor.AddTabs` | src/components/stories/navigation-editor/NavigationEditor.tsx:63-68 | after n clicks on "+ Add Tab" (line 185) the list has n more tabs, the original ones first, and the largest id has grown by exactly n |
| `NavigationEditor.RemoveTabKeepsIdsDistinct` | src/components/stories/navigation-editor/NavigationEditor.tsx:175 | removing a tab keeps the ids distinct |
| `NavigationEditor.RemoveAddedTab` | src/components/stories/navigation-editor/NavigationEditor.tsx:175-185 | removing the tab just added restores the list |
| `NavigationEditor.GetMaxIdAsWritten` | src/components/stories/navigation-editor/NavigationEditor.tsx:63-66 | `getMaxId` on any list: throws (None) exactly on the empty list, else the id of some tab and at least every id |
| `NavigationEditor.RemovingLastTabBreaksDefaultTab` | src/components/stories/navigation-editor/NavigationEditor.tsx:63-68 | deleting the only row (line 175) leaves an empty list, on which `getMaxId` throws |
| `NavigationEditor.NextTab` | src/components/stories/navigation-editor/NavigationEditor.tsx:68 | corrected default tab: its id exceeds every id and is 1 for an empty list; on a non-empty list it is `DefaultTab` |
| `NavigationEditor.AddNextTab` | src/components/stories/navigation-editor/NavigationEditor.tsx:185 | corrected add on any list: appends `NextTab` and keeps the others; on a non-empty list it is `AddTab` |
| `NavigationEditor.AddNextTabKeepsIdsDistinct` | src/components/stories/navigation-editor/NavigationEditor.tsx:68-185 | the corrected add keeps ids distinct on every list, and refills an emptied list with a tab of id 1 |
| `NavigationEditor.HideClickAsWritten` | src/components/stories/navigation-editor/NavigationEditor.tsx:169 | the hide icon's update keeps the list length |
| `NavigationEditor.HideClickIsNoOp` | src/components/stories/navigation-editor/NavigationEditor.tsx:169 | the hide icon as written leaves the list, and the row's `hidden` flag, unchanged |
| `NavigationEditor.ToggleHidden` | src/components/stories/navigation-editor/NavigationEditor.tsx:169 | corrected hide icon: flips the row's `hidden` flag and changes nothing else |
| `NavigationEditor.ToggleHiddenTwice` | src/components/stories/navigation-editor/NavigationEditor.tsx:169 | toggling twice restores the list; toggling keeps ids distinct |

## Findings

| source | as written | input that shows it | evidently intended | confidence | as-written member | corrected member |
|---|---|---|---|---|---|---|
| src/components/stories/navigation-editor/NavigationEditor.tsx:169 | the hide icon writes the row's current `hidden` value back into `navTabs.<index>.hidden` | any row, e.g. a tab with `hidden` false: after the click it is still false | write the negated flag, so the icon hides a shown tab and shows a hidden one | medium, not executed | `NavigationEditor.HideClickIsNoOp` | `NavigationEditor.ToggleHidden` |
| src/components/stories/navigation-editor/NavigationEditor.tsx:63-68 | `defaultTab` calls `getMaxId` on every render, and `getMaxId` reduces `navTabs` without a seed | a form with one tab whose delete icon is clicked: the next render throws "Reduce of empty array with no initial value", although the rendering at line 131 expects an empty list | an empty list gives the default tab id 1, so tabs can be added again | medium, not executed | `NavigationEditor.RemovingLastTabBreaksDefaultTab` | `NavigationEditor.AddNextTab` |
| src/components/onboarding/OnBoardingContex.tsx:66-70 | the ownership callback only ever sets the pending step to `CreateSpace`; from `CreateSpace` it never reaches `Finish` | a funded account with no space: the first run publishes CreateSpace, which changes `currentStep` and re-runs the effect; the re-run publishes CreateSpace again, `currentStep` is unchanged and the effect is not re-run; the user creates a space, that subscription fires with a non-empty list, CreateSpace is published again and the account is not stored while the provider stays mounted and no consumer calls `setCurrentStep` (line 105) | a funded account that owns a space reaches Finish and is stored | low, not executed | `Onboarding.CreateSpaceIsSticky` | `Onboarding.RederivedStep` |

The class `Onboarding.OnBoarding` keeps the behaviour as written
(`Onboarding.CreateSpaceThenSpaceOwned`); `Onboarding.RederivedStep` states
the intended step beside it.

## Left out

- React's scheduling is not modelled. The effect re-runs when `currentStep`, `address` or `isApiReady` change, and React runs the previous cleanup first. In the model, the caller makes these calls explicitly: `Cleanup`, then `EffectRun`. `EffectRun` requires the previous run's balance subscription and last ownership subscription to be closed; earlier ownership subscriptions may still be open (`leakedOwnerSubs`).
- The `await` before `unsubBalance` and `unsubBlog` are assigned is not modelled. A subscription is treated as open as soon as it is requested. A cleanup that runs before the chain API answers would leak that subscription; the model does not show this.
- `Onboarding.OnBoarding.OwnershipEvent`: only callbacks of the current run's ownership subscriptions are modelled. Leaked subscriptions are counted in `leakedOwnerSubs`, but a later firing of one acts on a finished run's closure, and that is not modelled.
- The chain RPC subscriptions `api.derive.balances.all` and `api.query.social.spaceIdsByOwner` are network I/O. Their snapshots are method arguments: the free balance as its decimal string, and whether the space list is empty.
- The `store` library is modelled as the field `stored`. Store write failures are not modelled.
- The `console.log` diagnostics are left out.
- `useIsLoggedIn`, `useMyAccount`, `useApi` and `useRouter` are represented by the arguments of `EffectRun`, the constructor and `Context`. MyAccountContext is not part of this model.
- The default context stub, whose setters throw when no provider is mounted, is not modelled.
- `Onboarding.OnBoarding.SetCurrentStep` takes one of the four steps. The source's setter accepts any number.
- `Utils.GtZero`: the string parse of bn.js is the function parameter `parse`, which returns `None` where bn.js throws. JavaScript numbers are modelled as reals, so NaN and the infinities are not modelled.
- `Utils.ToShortAddress`: lengths are counted in characters; JavaScript counts UTF-16 code units. An `AccountId` object is represented by its string form.
- `Utils.IsVisible`: `isMyAddress` is the boolean parameter `isMine`. The account context it reads is not part of this model.
- `calcVotingPercentage` is left out: it uses floating-point division and `Math.ceil`.
- `formatUnixDate` and `fakeClientId` are left out: they depend on moment and the clock.
- `getUrlParam` (a query-string wrapper), `isServerSide`, `isClientSide` and `isHomePage` (browser globals) are left out.
- `withRequireProfile`, `Loading` and `IconWithLabel` are rendering and are left out.
- `NavigationEditor.GetMaxId`, `NavigationEditor.DefaultTab`, `NavigationEditor.AddTab`: each requires a non-empty list, where the code does not throw; the throw on an empty list is modelled by `NavigationEditor.GetMaxIdAsWritten` (see Findings).
- `NavigationEditor.DefaultTab`: ids are unbounded integers. The source's ids are JavaScript numbers, so once the largest id reaches 2^53, `max + 1` equals `max` and the new tab repeats an id; non-integer and NaN ids cannot be represented. The same holds for `NavigationEditor.GetMaxId`, `NavigationEditor.AddTab` and `NavigationEditor.NextTab`.
- `NavigationEditor.RemoveTab` requires an index inside the list, since the delete icon is only rendered for existing rows.
- The NavigationEditor's Yup validation schema, its render helpers, the title, description, type and value field edits, and the submit handler are form configuration and rendering, and are left out.
- The rest of the repository is presentation glue and is left out: `AddTeamMemberFormik.tsx`, `ListBlogs.tsx`, `ClientLayout.tsx`, `MainPage.tsx`, `LogIn.tsx` and `ViewTags.tsx`.
