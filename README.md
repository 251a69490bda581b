# StitchAI jersey creator: authentication, forms and pickers in Dafny

This project models the stateful core of the StitchAI mobile client, a React
Native app in which a signed-in user designs football jerseys. It covers:

- **AuthContext** (`auth_context.dfy`): the session container. It holds the
  session, the user and a loading flag. It checks for an existing session on
  mount, signs in and out through the account service, and hides its children
  while loading. The pure transition functions (`AfterCheckSession`,
  `AfterSignin`, `AfterSignout`) say what each operation leaves behind.
  The class `AuthProvider` performs the same operations one state update at a
  time, and each of its methods is proved to end in the state the function gives.
- **Sign-in and sign-up forms** (`sign_in_form.dfy`, `sign_up_form.dfy`, with
  the field rules shared between them in `credentials.dfy`). This covers
  validation messages, the email pattern, the minimum password length counted
  in UTF-16 code units, and the submit sequence: validate, raise the loading
  flag, create the account, sign in, then navigate or alert. It also covers the
  edit handlers that clear a field's error.
- **Custom palette builder** (`color_picker.dfy`, from `ColorPickerDialog`): a
  list of at most five distinct colours, the custom hex input and the create
  rule. Every method keeps the builder's invariant.
- **Team logo selector and its dialog** (`team_logo_selector.dfy`,
  `team_logo_dialog.dfy`). The selector filters teams by search text and league.
  The dialog keeps a page counter: it starts at one page, goes back to one page
  on every search, and a completed load adds at most one page without passing
  the filtered length captured when that load began. The list shown
  (`DisplayedTeams`) never holds more teams than the filtered list.
- **Drawer history search** (`drawer_history.dfy`), the **style and palette
  pickers** (`style_selector.dfy`, `palette_selector.dfy`, sharing the press
  rule of `selection.dfy`) and the **constant tables** of `constants/jersey.ts`
  (`jersey.dfy`).

Shared helpers: `js_text.dfy` models the JavaScript string operations the
components call (`toLowerCase`, `toUpperCase`, `includes`, `trim`, `length`).
`seqs.dfy` models `Array.prototype.filter` and states its properties.
`account.dfy` holds the values exchanged with the account service and the
`SubmitResult` both forms end in.

Remote calls (`account.get`, `account.create`, `createEmailPasswordSession`,
`getSession`, `deleteSession`) are not performed. Each call's result is a
parameter of type `Remote<T>`, `Ok(value)` or `Fail(error)`, and each operation
returns the list of calls it makes, in order. A parameter for a call that is
never reached is ignored. Navigation (`router.replace`) and `Alert.alert` are
returned as a `SubmitResult` value.

A sign-in that fails half way does not restore the earlier state. The code
stores the new session as soon as it is created, before it fetches the user, so
a failed user fetch leaves the new session beside the old user, although the
error still reaches the form. The model follows the code
(`AuthContext.AfterSignin`), and `AuthContext.SigninFetchFailureUnpairs` states
the consequence.

## Model

| member | source | states |
|---|---|---|
| Account.MessageOr | components/auth/sign-in-form.tsx:63 | the alert text is the error's message when that is non-empty, and the fallback exactly when it is empty |
| AuthContext.Initial | context/AuthContext.tsx:20-24 | the provider starts loading, with no session and no user, and shows the loading placeholder |
| AuthContext.AfterCheckSession | context/AuthContext.tsx:28-41 | after the mount check: not loading, children shown; signed in with both fetched values exactly when both calls resolve, otherwise signed out |
| AuthContext.CheckSessionCalls | context/AuthContext.tsx:30-32 | exactly `get`, then `getSession("current")` when `get` resolved and nothing more: two calls or one |
| AuthContext.AfterSignin | context/AuthContext.tsx:46-64 | after sign-in: not loading; unchanged when session creation fails; the new session is stored once created; the user is replaced only when the fetch resolves |
| AuthContext.SigninOutcome | context/AuthContext.tsx:58-60 | sign-in resolves exactly when both calls resolve; otherwise it rejects with the first failing call's error |
| AuthContext.SigninCalls | context/AuthContext.tsx:49-56 | exactly the session creation, then `get` when creation resolved and nothing more: two calls or one |
| AuthContext.AfterSignout | context/AuthContext.tsx:66-78 | after sign-out: not loading; signed out when the deletion resolves; session and user unchanged when it fails |
| AuthContext.SignoutOutcome | context/AuthContext.tsx:72-74 | sign-out resolves exactly when the deletion resolves, else rejects with its error |
| AuthContext.ChildrenShownAfterEveryOperation | context/AuthContext.tsx:38-40 | the mount check, sign-in and sign-out all end with the children rendered, whatever the calls return |
| AuthContext.SigninThenSignout | context/AuthContext.tsx:46-78 | a successful sign-in signs in from any state, and a successful sign-out after it signs out |
| AuthContext.SigninFetchFailureUnpairs | context/AuthContext.tsx:53-57 | from signed out, a sign-in whose user fetch fails leaves a session with no user |
| AuthContext.Render | context/AuthContext.tsx:84-90 | a state shows its children exactly when it is not loading, and the placeholder exactly when it is |
| AuthContext.AuthProvider.Rendered | context/AuthContext.tsx:82-91 | the children are rendered exactly when the provider is not loading |
| AuthContext.AuthProvider.constructor | context/AuthContext.tsx:20-24 | a new provider is in the initial state |
| AuthContext.AuthProvider.CheckSession | context/AuthContext.tsx:28-41 | step by step, with the catch clearing a user already stored, it ends in `AfterCheckSession` and makes `CheckSessionCalls` |
| AuthContext.AuthProvider.Signin | context/AuthContext.tsx:46-64 | it ends in `AfterSignin` of the old state, returns `SigninOutcome` and makes `SigninCalls` |
| AuthContext.AuthProvider.Signout | context/AuthContext.tsx:66-78 | it ends in `AfterSignout` of the old state, returns `SignoutOutcome` and deletes the current session once |
| Credentials.FirstIndexOf | components/auth/sign-in-form.tsx:31 | the index of the first occurrence of a character, or none when it does not occur |
| Credentials.LastIndexOf | components/auth/sign-in-form.tsx:31 | the index of the last occurrence of a character, or none when it does not occur |
| Credentials.EmailSplitIsForced | components/auth/sign-in-form.tsx:31 | in any match of the email pattern, the '@' is the first '@' and the dot is the last '.' |
| Credentials.IsEmail | components/auth/sign-in-form.tsx:31 | true exactly when some placement of '@' and the final dot makes every group of the email pattern match |
| Credentials.AcceptedEmailShape | components/auth/sign-up-form.tsx:58 | an accepted address holds exactly one '@' and ends in '.' followed by at least two ASCII letters |
| Credentials.EmailError | components/auth/sign-in-form.tsx:32-38 | "Email is required" for an empty email; the pattern message for a non-matching one; empty exactly when the pattern matches |
| Credentials.PasswordError | components/auth/sign-in-form.tsx:40-46 | "Password is required" for an empty password; the length message below 8 UTF-16 code units; empty exactly when at least 8 |
| SignInForm.ValidationErrors | components/auth/sign-in-form.tsx:27-48 | `newErrors` holds each field rule's message, and each field's message is empty exactly when its rule holds |
| SignInForm.ValidIffRulesHold | components/auth/sign-in-form.tsx:26-51 | validation finds no error exactly when the email matches the pattern and the password has at least 8 code units |
| SignInForm.SettledResult | components/auth/sign-in-form.tsx:59-67 | navigates to "/" exactly when sign-in resolved; otherwise alerts "Sign In Error" with the error's message or the fallback |
| SignInForm.SignInForm.constructor | components/auth/sign-in-form.tsx:17-20 | a new form has empty fields, no errors and is not loading, and uses the given provider |
| SignInForm.SignInForm.ValidateForm | components/auth/sign-in-form.tsx:26-51 | it stores the messages of both field rules and reports valid exactly when both are empty |
| SignInForm.SignInForm.OnSubmit | components/auth/sign-in-form.tsx:53-68 | an invalid form makes no call and leaves the provider untouched; a valid one signs in through the provider, makes its calls and settles as `SettledResult`; the loading flag ends lowered |
| SignInForm.SignInForm.OnEmailChange | components/auth/sign-in-form.tsx:93-96 | the email becomes the text and only the email error is cleared |
| SignInForm.SignInForm.OnPasswordChange | components/auth/sign-in-form.tsx:124-127 | the password becomes the text and only the password error is cleared |
| SignUpForm.NameError | components/auth/sign-up-form.tsx:52-55 | "Name is required" for a name that is all whitespace, and empty exactly when the name holds a non-whitespace character |
| SignUpForm.ConfirmError | components/auth/sign-up-form.tsx:77-83 | "Please confirm your password" when empty; "Passwords do not match" when different; empty exactly when non-empty and equal |
| SignUpForm.ValidationErrors | components/auth/sign-up-form.tsx:48-85 | `newErrors` holds the four field rules' messages, and each field's message is empty exactly when its rule holds |
| SignUpForm.ValidIffRulesHold | components/auth/sign-up-form.tsx:47-87 | validation finds no error exactly when the name is not blank, the email matches, the password has 8 code units and the confirmation repeats it |
| SignUpForm.SubmitCalls | components/auth/sign-up-form.tsx:97-100 | exactly the account creation, followed by sign-in's own calls when creation resolved and nothing else: one, two or three calls |
| SignUpForm.SettledResult | components/auth/sign-up-form.tsx:95-109 | navigates to "/" exactly when creation and sign-in both resolved; otherwise alerts "Sign Up Error" with the first error's message or the fallback |
| SignUpForm.SignUpForm.constructor | components/auth/sign-up-form.tsx:21-31 | a new form has four empty fields, no errors and is not loading, and uses the given provider |
| SignUpForm.SignUpForm.ValidateForm | components/auth/sign-up-form.tsx:47-87 | it stores the four field messages and reports valid exactly when all are empty |
| SignUpForm.SignUpForm.CheckName | components/auth/sign-up-form.tsx:52-55 | the `trim` test gives the name message, and passes exactly when the name is not all whitespace |
| SignUpForm.SignUpForm.CheckEmail | components/auth/sign-up-form.tsx:58-65 | the email block gives `EmailError` and passes exactly when the pattern matches |
| SignUpForm.SignUpForm.CheckPassword | components/auth/sign-up-form.tsx:68-74 | the password block gives `PasswordError` and passes exactly when the length is at least 8 |
| SignUpForm.SignUpForm.CheckConfirm | components/auth/sign-up-form.tsx:77-83 | the confirmation block gives `ConfirmError` and passes exactly when it repeats the password |
| SignUpForm.SignUpForm.OnSubmit | components/auth/sign-up-form.tsx:89-110 | an invalid form makes no call; a valid one creates the account and signs in only after creation resolved, leaving the provider as `AfterSignin` gives |
| SignUpForm.SignUpForm.SubmitValid | components/auth/sign-up-form.tsx:94-109 | the post-validation path: calls `SubmitCalls`, settles as `SettledResult`, signs in only when creation resolved, loading flag lowered |
| SignUpForm.SignUpForm.OnNameChange | components/auth/sign-up-form.tsx:133-136 | the name becomes the text and only the name error is cleared |
| SignUpForm.SignUpForm.OnEmailChange | components/auth/sign-up-form.tsx:153-156 | the email becomes the text and only the email error is cleared |
| SignUpForm.SignUpForm.OnPasswordChange | components/auth/sign-up-form.tsx:172-179 | the password error is cleared; the confirmation error is cleared exactly when the new text equals a non-empty confirmation; name and email errors are kept |
| SignUpForm.SignUpForm.OnConfirmChange | components/auth/sign-up-form.tsx:195-198 | the confirmation becomes the text and only its error is cleared |
| JsText.Lower | components/create/team/TeamLogoSelector.tsx:29-31 | same length, each character lower-cased |
| JsText.Upper | components/create/color/ColorPickerDialog.tsx:201 | same length, each character upper-cased |
| JsText.LowerIdempotent | components/CustomDrawerContent.tsx:47 | lower-casing an already lower-cased string changes nothing |
| JsText.LowerOfUpper | components/create/team/TeamLogoSelector.tsx:29-31 | an upper-cased query lower-cases to the same text as the query itself |
| JsText.Includes | components/CustomDrawerContent.tsx:47 | true exactly when the needle occurs at some index of the haystack |
| JsText.IncludesEmpty | components/create/team/TeamLogoSelector.tsx:29-31 | every string includes the empty string |
| JsText.TrimStart | components/create/color/ColorPickerDialog.tsx:96 | a suffix of the input; everything dropped is whitespace; it does not start with whitespace |
| JsText.TrimEnd | components/create/color/ColorPickerDialog.tsx:96 | a prefix of the input; everything dropped is whitespace; it does not end with whitespace |
| JsText.Trim | components/auth/sign-up-form.tsx:52 | a contiguous part of the input with only whitespace before and after it and whitespace at neither of its ends, empty exactly when the input is all whitespace |
| JsText.TrimFacts | components/auth/sign-up-form.tsx:52 | the properties of `Trim`, including that only whitespace is cut off, proved for trim-end of trim-start |
| JsText.Utf16Length | components/auth/sign-in-form.tsx:44 | at least the number of characters and at most twice it, zero exactly for the empty string |
| Seqs.Filter | components/CustomDrawerContent.tsx:46-48 | an element is kept exactly when it is in the input and passes the test; every occurrence of a passing element is kept and none of a failing one; the result is a subsequence of the input |
| Seqs.FilterAll | components/create/team/TeamLogoSelector.tsx:28-35 | when every element passes, filtering returns the input unchanged |
| Seqs.FilterCongruent | components/CustomDrawerContent.tsx:46-48 | two tests that agree on every element filter alike |
| Seqs.FilterDistinct | components/create/color/ColorPickerDialog.tsx:81 | filtering a list without duplicates gives a list without duplicates |
| ColorPicker.IsHexColor | components/create/color/ColorPickerDialog.tsx:18 | a matching string is seven characters long and starts with '#' |
| ColorPicker.HexColorIgnoresCase | components/create/color/ColorPickerDialog.tsx:18 | the pattern's digit class takes both cases, so upper- or lower-casing a match keeps it a match |
| ColorPicker.PresetColorsAreHex | components/create/color/ColorPickerDialog.tsx:18-36 | every preset satisfies the hex pattern and no preset is listed twice |
| ColorPicker.NormalizeHexInput | components/create/color/ColorPickerDialog.tsx:199-205 | the stored text always starts with '#'; text typed with '#' is upper-cased, other text gets '#' in front |
| ColorPicker.NormalizeKeepsHexColors | components/create/color/ColorPickerDialog.tsx:199-205 | a valid colour typed with '#' stays valid, and six hex digits typed without '#' become valid as typed |
| ColorPicker.LowerCaseInputKept | components/create/color/ColorPickerDialog.tsx:199-205 | "ff0000" is stored as "#ff0000", a valid colour kept in lower case |
| ColorPicker.SameColourTwoSpellings | components/create/color/ColorPickerDialog.tsx:20-21 | "#ff0000" differs from the preset "#FF0000" although both name the same colour, so the duplicate check lets it in |
| ColorPicker.Without | components/create/color/ColorPickerDialog.tsx:80-82 | the colour is gone, every other colour is kept in order, and no duplicate appears |
| ColorPicker.CanCreate | components/create/color/ColorPickerDialog.tsx:96 | creation is allowed exactly when the name is not blank and at least two colours are chosen |
| ColorPicker.PaletteBuilder.constructor | components/create/color/ColorPickerDialog.tsx:64-66 | empty name, no colours, custom input "#", invariant established |
| ColorPicker.PaletteBuilder.Reset | components/create/color/ColorPickerDialog.tsx:68-72 | back to the initial values, invariant kept |
| ColorPicker.PaletteBuilder.AddColor | components/create/color/ColorPickerDialog.tsx:74-78 | the colour is appended exactly when fewer than five are chosen and it is not already chosen; at most five distinct colours remain |
| ColorPicker.PaletteBuilder.RemoveColor | components/create/color/ColorPickerDialog.tsx:80-82 | the list becomes `Without` the colour, invariant kept |
| ColorPicker.PaletteBuilder.AddCustomColor | components/create/color/ColorPickerDialog.tsx:84-93 | a valid, new custom colour is appended when there is room and the input is reset; otherwise nothing changes |
| ColorPicker.PaletteBuilder.Create | components/create/color/ColorPickerDialog.tsx:95-104 | a palette with the trimmed name and the colours is emitted exactly when `CanCreate`, and then the builder is reset; otherwise nothing changes |
| ColorPicker.PaletteBuilder.SetPaletteName | components/create/color/ColorPickerDialog.tsx:124 | the name becomes the typed text, and the builder's invariant is kept |
| ColorPicker.PaletteBuilder.OnCustomColorChange | components/create/color/ColorPickerDialog.tsx:199-205 | the custom input becomes `NormalizeHexInput` of the text, invariant kept |
| TeamLogoSelector.MatchesSearch | components/create/team/TeamLogoSelector.tsx:29-31 | a team matches exactly when the lower-cased query occurs in its lower-cased name; the empty query matches every team |
| TeamLogoSelector.MatchesLeague | components/create/team/TeamLogoSelector.tsx:32-33 | "All" matches every team; any other league matches exactly the teams of that league |
| TeamLogoSelector.FilteredTeams | components/create/team/TeamLogoSelector.tsx:26-37 | a team is kept exactly when its lower-cased name contains the lower-cased query and its league matches ("All" matches any); order is kept |
| TeamLogoSelector.InitialFilterKeepsAll | components/create/team/TeamLogoSelector.tsx:22-37 | with the initial empty query and "All", every team is shown |
| TeamLogoSelector.QueryCaseIrrelevant | components/create/team/TeamLogoSelector.tsx:29-31 | two queries that differ only in letter case select the same teams |
| TeamLogoSelector.TeamPicker.constructor | components/create/team/TeamLogoSelector.tsx:22-24 | closed, empty query, league "All", so every team is shown |
| TeamLogoSelector.TeamPicker.SelectTeam | components/create/team/TeamLogoSelector.tsx:39-44 | reports the team, closes the dialog and resets query and league, so every team is shown again |
| TeamLogoSelector.TeamPicker.ClearSelection | components/create/team/TeamLogoSelector.tsx:46-48 | reports that no team is chosen |
| TeamLogoSelector.TeamPicker.SetOpen | components/create/team/TeamLogoSelector.tsx:72 | the dialog's open flag becomes the given value |
| TeamLogoSelector.TeamPicker.SetSearchQuery | components/create/team/TeamLogoSelector.tsx:73 | the query becomes the given text |
| TeamLogoSelector.TeamPicker.SetLeague | components/create/team/TeamLogoSelector.tsx:71 | the league becomes the given value |
| TeamLogoDialog.DisplayedTeams | components/create/team/TeamLogoDialogContent.tsx:49 | the first teams of the filtered list, as many as the count allows |
| TeamLogoDialog.HasMoreItems | components/create/team/TeamLogoDialogContent.tsx:50 | more remain exactly when fewer teams are displayed than filtered |
| TeamLogoDialog.NextCount | components/create/team/TeamLogoDialogContent.tsx:67-69 | a load never passes the total, ends at one page more or at the total, and grows the count while it is below the total |
| TeamLogoDialog.CountAfterLoads | components/create/team/TeamLogoDialogContent.tsx:60-72 | below the total, n loads reach one page per load or the total, whichever is smaller; at or above it, the count stays |
| TeamLogoDialog.LoadsReachTotal | components/create/team/TeamLogoDialogContent.tsx:60-72 | enough completed loads display every filtered team |
| TeamLogoDialog.TeamPager.constructor | components/create/team/TeamLogoDialogContent.tsx:41-47 | one page displayed, no load in flight |
| TeamLogoDialog.TeamPager.HandleSearchChange | components/create/team/TeamLogoDialogContent.tsx:52-58 | the text is forwarded to the selector's query and the count goes back to one page |
| TeamLogoDialog.TeamPager.BeginLoad | components/create/team/TeamLogoDialogContent.tsx:60-65 | a load starts exactly when none is in flight and more teams remain, capturing the filtered length |
| TeamLogoDialog.TeamPager.CompleteLoad | components/create/team/TeamLogoDialogContent.tsx:66-71 | the count grows by at most one page, strictly, up to the captured length, and the load ends |
| DrawerHistory.TitleMatches | components/CustomDrawerContent.tsx:47 | a conversation matches exactly when the lower-cased query occurs in its lower-cased title; the empty query matches every one |
| DrawerHistory.FilteredConversations | components/CustomDrawerContent.tsx:46-48 | a conversation is shown exactly when its lower-cased title contains the lower-cased query; order is kept |
| DrawerHistory.EmptyQueryShowsAll | components/CustomDrawerContent.tsx:18-31 | the initial empty query shows every conversation, all five of the sample |
| DrawerHistory.QueryCaseIrrelevant | components/CustomDrawerContent.tsx:46-48 | queries that differ only in letter case show the same conversations |
| Selection.Toggle | components/create/StyleSelector.tsx:46-48 | after a press exactly the pressed item is highlighted, unless it was highlighted before, in which case none is |
| Selection.ToggleTwice | components/create/PaletteSelector.tsx:34-38 | pressing the same item twice restores its selection, or clears any other |
| Selection.Highlighted | components/create/PaletteSelector.tsx:28-32 | the highlighted items are those whose id is selected, and there is at most one when ids are distinct |
| Selection.AtMostOneHighlighted | components/create/StyleSelector.tsx:40-44 | with distinct ids, at most one item is highlighted |
| StyleSelector.PressStyle | components/create/StyleSelector.tsx:46-48 | a press reports nothing exactly when that style was selected, and otherwise its id |
| StyleSelector.HighlightedStyles | components/create/StyleSelector.tsx:33-44 | the highlighted styles are those whose id is selected, at most one |
| PaletteSelector.PressPalette | components/create/PaletteSelector.tsx:34-38 | a press reports nothing exactly when that palette was selected, and otherwise its id |
| PaletteSelector.HighlightedPalettes | components/create/PaletteSelector.tsx:28-32 | the highlighted palettes are those whose id is selected, at most one |
| Jersey.PaletteIdsAreDistinct | constants/jersey.ts:57-64 | the six palette ids are distinct |
| Jersey.StyleIdsAreDistinct | constants/jersey.ts:67-74 | the six style ids are distinct |
| Jersey.PalettesAreThreeHexColors | constants/jersey.ts:57-64 | every palette has exactly three colours, each a six-digit hex colour |
| Jersey.TeamColorsAreHex | constants/jersey.ts:5-54 | every team's primary and secondary colours are six-digit hex colours |

## Left out

- The account service itself (the `react-native-appwrite` SDK, the network, `lib/appwrite.ts`) is not part of this model. Each call's result is a parameter, and `ID.unique()` for a new account's id is not modelled.
- `router.replace` and `Alert.alert` are modelled as returned `SubmitResult` values; the screens they lead to are not modelled.
- `console.log` of sign-in and sign-out errors is output only and is left out.
- Keyboard focus moves (`onEmailSubmitEditing`, `onPasswordSubmitEditing`) only move focus, so they are left out.
- Rendering, styling, animation, icon colours and the dark-mode choice are left out; only the choices that decide what is highlighted or shown are modelled.
- The bottom drawer's animation and layout, and the user menu's avatar, are presentation only.
- `constants/teams` is not part of this model; the team list is a parameter of `TeamPicker`.
- The `setTimeout` delay inside `loadMoreItems` is split into `BeginLoad` and `CompleteLoad`; the 100 ms timing is not modelled.
- The mount-only `useEffect` of `TeamLogoDialogContent`, which sets the count to one page, is folded into the pager's constructor.
- The custom colour input's `maxLength={7}`, which the text widget enforces before `onChangeText` runs, is not modelled; the text may be of any length.
- Intermediate renders while the provider is loading are not modelled; the loading gate is stated as `AuthProvider.Rendered` of the state.
- SignInForm.SignInForm.OnSubmit: the whole navigation stack sits under the provider (`app/_layout.tsx:35-51`), so raising the provider's loading flag in `signin` unmounts the form that called it, and a fresh form with empty fields mounts once loading ends. The model keeps one form instance throughout; its fields and its lowered `isLoading` after the call are those of the instance the app has discarded, and the remount is not modelled.
- SignUpForm.SignUpForm.OnSubmit: the same unmount and remount happen during the sign-in step; the form state it ends in is that of the discarded instance, and the remount is not modelled.
- The colour dialog's `onClose()` after a handover is not modelled on its own; `PaletteBuilder.Create` returning a palette stands for it, and the parent's open flag is not part of this model.
- The setters passed straight to child components (`setIsOpen`, `setSearchQuery`, `setSelectedLeague`, `setPaletteName`) are modelled as plain assignments.
- The total number of teams the team dialog receives is display only.
- TeamLogoSelector.TeamPicker.SetLeague: the team dialog (`components/create/team/TeamLogoDialogContent.tsx:33-40`) never reads the `leagues`, `selectedLeague` or `onLeagueChange` props it is handed and renders no league filter, so the `setSelectedLeague` passed at `components/create/team/TeamLogoSelector.tsx:71` and `:91` is never called. In the running app the league stays "All". `SetLeague` models a setter no caller reaches.
- TeamLogoSelector.MatchesLeague: with the league always "All" in practice, the league test always passes; it and `FilteredTeams` cover a league path the interface never exercises.
- JsText.Lower: maps only the ASCII letters A–Z, while `toLowerCase` applies the full Unicode case mapping.
- JsText.Upper: maps only the ASCII letters a–z, while `toUpperCase` applies the full Unicode case mapping.
- The sign-up `validateForm` runs its four field blocks in sequence. The model runs each block as its own method (`CheckName`, `CheckEmail`, `CheckPassword`, `CheckConfirm`) and combines them. The messages and the validity flag are the same.
