# geovez front end — a Dafny model

This project models the state logic of the geovez web-mapping front end, a
React application built on the ArcGIS Maps SDK for JavaScript with a Redux
store. It covers these parts:

- **The four Redux slices** (`auth`, `ui`, `map`, `config`). Each is a pure
  reducer over a state datatype plus a store class whose fields the reducers
  update in place. A ghost `log` ties the store's fields to the fold of every
  action it has reduced.
- **The authentication thunks** `initializeOAuth`, `checkExistingAuth` and
  `signOut`. Identity-manager and HTTP results are inputs: `Outcome` is a
  resolved value or a rejection carrying the thrown value.
- **The sign-in dialog** (`AuthModal`). The press part runs up to the first
  await. The finish part covers the try block, the classification of the
  error message in the catch block, and the finally block.
- **The `useMap` hook.** Views are handles drawn from a counter, and `live` is
  the set of views created and not yet destroyed. The hook keeps at most one
  view live as long as `destroy()` does not throw.
- **App bootstrap.** This covers the organisation taken from the URL, the mock
  configuration, the order of dispatches, the "SDK ready" latch driven by a
  timeout and an interval, and the choice between the spinner and the shell.
- **The pure logic of four components.** `MapsPanel` converts search results
  and updates the store. `ToolsPanel` holds the tool table, the category
  filter, the groups and counts, the launch guard, the status chips and the
  row buttons. `Drawer` maps each key to its panel, title and icon, and
  closes. `SideNav` holds the menu items, dispatches navigation and marks the
  active item.

Each module is one file: `common.dfy`, `auth_slice.dfy`, `ui_slice.dfy`,
`map_slice.dfy`, `config_slice.dfy`, `auth_modal.dfy`, `use_map.dfy`,
`app.dfy`, `maps_panel.dfy`, `tools_panel.dfy`, `drawer.dfy` and
`side_nav.dfy`.

## Model

| member | source | states |
|---|---|---|
| AuthSlice.InitialState | src/store/slices/authSlice.ts:24-30 | the initial state is signed out, idle and error-free, with user and token absent together |
| AuthSlice.Reduce | src/store/slices/authSlice.ts:36-55 | each reducer sets exactly its payload's fields and leaves every other field unchanged; `setAuthentication` authenticates and clears loading and error; `clearAuthentication` returns to the initial state; the user/token/flag consistency is preserved |
| AuthSlice.ReduceAllAppend | src/store/slices/authSlice.ts:36-55 | reducing two batches of actions in a row equals reducing their concatenation |
| AuthSlice.ReachableStatesConsistent | src/store/slices/authSlice.ts:24-55 | every state reachable from the initial state has user and token present exactly while authenticated |
| AuthSlice.ReducersIdempotent | src/store/slices/authSlice.ts:36-55 | dispatching any auth action twice equals dispatching it once |
| AuthSlice.AuthStore.SetLoading | src/store/slices/authSlice.ts:36-38 | the store's state becomes the reducer applied to the old state, and the action is appended to the log |
| AuthSlice.AuthStore.SetError | src/store/slices/authSlice.ts:39-41 | as above, for `setError` |
| AuthSlice.AuthStore.SetAuthentication | src/store/slices/authSlice.ts:42-48 | as above, for `setAuthentication` |
| AuthSlice.AuthStore.ClearAuthentication | src/store/slices/authSlice.ts:49-55 | as above, for `clearAuthentication` |
| AuthSlice.StoreAppend | src/store/slices/authSlice.ts:36-55 | a store's state after extra dispatches is those dispatches reduced on top of its previous state |
| AuthSlice.InitializeOAuth | src/store/slices/authSlice.ts:62-91 | a registration is created only when the SDK is loaded and none exists; it targets the portal, uses the client id or the default app id, redirect sign-in (`popup` false, flow type "auto") and the origin's callback page; an existing registration is kept |
| AuthSlice.InitializeOAuthIdempotent | src/store/slices/authSlice.ts:62-91 | running the thunk a second time changes nothing |
| AuthSlice.UserFromProfile | src/store/slices/authSlice.ts:109-116 | the user record takes each profile field when it is truthy; otherwise fullName falls back to the username, role to "user", and email and orgId to "" |
| AuthSlice.SilentCheckDispatches | src/store/slices/authSlice.ts:93-127 | `setAuthentication` is dispatched exactly when the SDK is loaded, a credential with a token exists, and the profile has no error and has a username; otherwise nothing is dispatched, rejections included |
| AuthSlice.SilentCheckOnlyAuthenticates | src/store/slices/authSlice.ts:93-127 | a silent check either leaves the state unchanged or authenticates with the credential's token and a cleared error; it never signs out |
| AuthSlice.CheckExistingAuth | src/store/slices/authSlice.ts:93-127 | the store reduces exactly the silent-check dispatches, branch by branch |
| AuthSlice.SignOut | src/store/slices/authSlice.ts:129-143 | the slice is cleared to the initial state whether or not destroying the credentials fails |
| UiSlice.InitialState | src/store/slices/uiSlice.ts:14-21 | the initial state has the navigation open, the drawer closed and empty, no mobile menu, no tour and no loading, and satisfies the drawer invariant |
| UiSlice.Reduce | src/store/slices/uiSlice.ts:27-55 | each of the nine reducers sets only its own fields; the toggles negate; `openDrawer` opens with the given content; `closeDrawer` closes and empties; "content implies open" is preserved |
| UiSlice.ReduceAllAppend | src/store/slices/uiSlice.ts:27-55 | reducing two batches in a row equals reducing their concatenation |
| UiSlice.ReachableStatesKeepDrawerInvariant | src/store/slices/uiSlice.ts:14-55 | no reachable state shows a panel in a closed drawer |
| UiSlice.TogglesAreInvolutions | src/store/slices/uiSlice.ts:27-29 | toggling the side navigation or the mobile menu twice restores the state |
| UiSlice.NonTogglesAreIdempotent | src/store/slices/uiSlice.ts:30-55 | every other reducer is idempotent |
| UiSlice.UIStore.ToggleSideNav | src/store/slices/uiSlice.ts:27-29 | the store's state becomes the reducer applied to the old state, and the action is logged |
| UiSlice.UIStore.SetSideNavOpen | src/store/slices/uiSlice.ts:30-32 | as above, for `setSideNavOpen` |
| UiSlice.UIStore.OpenDrawer | src/store/slices/uiSlice.ts:33-36 | as above, for `openDrawer` |
| UiSlice.UIStore.CloseDrawer | src/store/slices/uiSlice.ts:37-40 | as above, for `closeDrawer` |
| UiSlice.UIStore.ToggleMobileMenu | src/store/slices/uiSlice.ts:41-43 | as above, for `toggleMobileMenu` |
| UiSlice.UIStore.SetMobileMenuOpen | src/store/slices/uiSlice.ts:44-46 | as above, for `setMobileMenuOpen` |
| UiSlice.UIStore.StartHelpTour | src/store/slices/uiSlice.ts:47-49 | as above, for `startHelpTour` |
| UiSlice.UIStore.EndHelpTour | src/store/slices/uiSlice.ts:50-52 | as above, for `endHelpTour` |
| UiSlice.UIStore.SetLoading | src/store/slices/uiSlice.ts:53-55 | as above, for `setLoading` |
| MapSlice.InitialState | src/store/slices/mapSlice.ts:22-29 | the initial state has no map selected, no maps, no loading or error, and the layer list and legend hidden |
| MapSlice.Reduce | src/store/slices/mapSlice.ts:35-53 | each setter writes exactly one field with its payload and leaves the other five unchanged |
| MapSlice.ReduceAllAppend | src/store/slices/mapSlice.ts:35-53 | reducing two batches in a row equals reducing their concatenation |
| MapSlice.LastWriteWins | src/store/slices/mapSlice.ts:35-53 | two writes to the same field equal the last one, so every setter is idempotent |
| MapSlice.SetAvailableMapsReplaces | src/store/slices/mapSlice.ts:38-40 | `setAvailableMaps` replaces the list, whatever list was there before |
| MapSlice.DistinctWritesCommute | src/store/slices/mapSlice.ts:35-53 | setters of different fields commute |
| MapSlice.MapStore.SetCurrentMapId | src/store/slices/mapSlice.ts:35-37 | the store's state becomes the reducer applied to the old state, and the action is logged |
| MapSlice.MapStore.SetAvailableMaps | src/store/slices/mapSlice.ts:38-40 | as above, for `setAvailableMaps` |
| MapSlice.MapStore.SetLoading | src/store/slices/mapSlice.ts:41-43 | as above, for `setLoading` |
| MapSlice.MapStore.SetError | src/store/slices/mapSlice.ts:44-46 | as above, for `setError` |
| MapSlice.MapStore.SetLayerListVisible | src/store/slices/mapSlice.ts:47-49 | as above, for `setLayerListVisible` |
| MapSlice.MapStore.SetLegendVisible | src/store/slices/mapSlice.ts:50-52 | as above, for `setLegendVisible` |
| ConfigSlice.InitialState | src/store/slices/configSlice.ts:37-41 | the initial state has no configuration, is not loading and has no error |
| ConfigSlice.Reduce | src/store/slices/configSlice.ts:47-63 | `setConfig` stores the configuration and clears loading and error; `setError` also clears loading; `clearConfig` returns to the initial state; other fields are unchanged |
| ConfigSlice.ReduceAllAppend | src/store/slices/configSlice.ts:47-63 | reducing two batches in a row equals reducing their concatenation |
| ConfigSlice.ClearConfigResets | src/store/slices/configSlice.ts:59-63 | `clearConfig` reaches the initial state from any history and is idempotent |
| ConfigSlice.ConfigSurvivesFlags | src/store/slices/configSlice.ts:47-58 | a stored configuration survives any later `setLoading` and `setError` actions |
| ConfigSlice.ConfigStore.SetConfig | src/store/slices/configSlice.ts:47-51 | the store's state becomes the reducer applied to the old state, and the action is logged |
| ConfigSlice.ConfigStore.SetLoading | src/store/slices/configSlice.ts:52-54 | as above, for `setLoading` |
| ConfigSlice.ConfigStore.SetError | src/store/slices/configSlice.ts:55-58 | as above, for `setError` |
| ConfigSlice.ConfigStore.ClearConfig | src/store/slices/configSlice.ts:59-63 | as above, for `clearConfig` |
| AuthModal.RegisterIfMissing | src/components/Auth/AuthModal.tsx:32-42 | a registration always exists afterwards; an existing one is kept; a new one is the dialog's own: default app id, portal, redirect sign-in with flow type "auto", and the fixed local callback page |
| AuthModal.ModalOAuthInfo | src/components/Auth/AuthModal.tsx:33-39 | the dialog's registration uses the default app id, the portal, `popup` false, flow type "auto" and the fixed `https://localhost:3000` callback page |
| AuthModal.StatusMessage | src/components/Auth/AuthModal.tsx:61-63 | the non-ok message is the prefix, then decimal digits that read back as the status code, a space and the status text |
| AuthModal.SignInAttempt | src/components/Auth/AuthModal.tsx:44-87 | sign-in succeeds exactly when every check passes, with the defaulted user and the credential's token; otherwise the first failing step decides what is thrown: a rejection, a missing token, a non-ok status, an invalid body, a profile error (its message or the fallback) or a missing username |
| AuthModal.SignInErrorMessage | src/components/Auth/AuthModal.tsx:88-102 | the catch message checks "popup", then "network", then "ArcGIS", in that order, else uses the error's own message; a non-Error value gives the generic text |
| AuthModal.PressDispatches | src/components/Auth/AuthModal.tsx:21-28 | without the SDK only the SDK-missing error is dispatched; otherwise `setLoading(true)` then `setError(null)`; pressing never dispatches anything but loading and error |
| AuthModal.FinishDispatches | src/components/Auth/AuthModal.tsx:76-107 | two actions: `setAuthentication` with the attempt's user and token exactly when the try block succeeds, otherwise `setError` with the classified message; then `setLoading(false)` |
| AuthModal.SignInDispatches | src/components/Auth/AuthModal.tsx:20-108 | without the SDK one action; otherwise four, beginning with the press part, continuing with the finish part and ending with `setLoading(false)` |
| AuthModal.SignInEffect | src/components/Auth/AuthModal.tsx:20-108 | without the SDK only the error changes; otherwise loading always ends false; success authenticates with a cleared error; failure records the classified message and keeps user, token and flag |
| AuthModal.PressStartsLoading | src/components/Auth/AuthModal.tsx:26-28 | before the credential request, loading is set and the error is cleared |
| AuthModal.TrySignIn | src/components/Auth/AuthModal.tsx:44-87 | the step-by-step try block returns the attempt `SignInAttempt` specifies |
| AuthModal.ClassifySignInError | src/components/Auth/AuthModal.tsx:90-102 | the mutable if-chain computes `SignInErrorMessage` |
| AuthModal.Modal.PressCancel | src/components/Auth/AuthModal.tsx:160-168 | Cancel closes the dialog exactly when no sign-in is in flight |
| AuthModal.Modal.PressSignIn | src/components/Auth/AuthModal.tsx:20-42 | a disabled button does nothing; without the SDK only the error is dispatched; otherwise the busy flags are raised, the error is cleared and the registration is made if missing |
| AuthModal.Modal.FinishSignIn | src/components/Auth/AuthModal.tsx:44-108 | the store reduces the success or failure dispatches followed by `setLoading(false)`; the dialog closes exactly on success; the busy flag is always lowered |
| UseMap.FailureMessage | src/hooks/useMap.ts:128-132 | an Error's message is shown as is; any other thrown value gives "Failed to load map" |
| UseMap.InitialState | src/hooks/useMap.ts:19-23 | the hook starts with no view, not loading, no error, not initialised and no live view |
| UseMap.Start | src/hooks/useMap.ts:25-89 | the guard skips when there is no container or the map is initialised; otherwise loading is raised and the error cleared, a successful destroy removes the old view from the live set, and a new view is created or the construction error is recorded; the one-live-view invariant is kept when destroy succeeds |
| UseMap.Complete | src/hooks/useMap.ts:91-132 | after the wait, the map is marked initialised or the error recorded; loading always ends false; the view is untouched |
| UseMap.Retried | src/hooks/useMap.ts:154-158 | retry clears error and initialised flag and initialises again; with a container the result is never marked initialised |
| UseMap.TornDown | src/hooks/useMap.ts:135-146 | unmount destroys the held view when destroy succeeds, leaving no live view; otherwise nothing changes |
| UseMap.Step | src/hooks/useMap.ts:25-158 | one hook event never lowers the handle counter, keeps every handle in use an issued one, and keeps the hook owning only its view when `destroy()` succeeds |
| UseMap.Run | src/hooks/useMap.ts:25-158 | a sequence of events never lowers the counter and keeps every handle in use an issued one |
| UseMap.AtMostOneLiveView | src/hooks/useMap.ts:25-158 | while no destroy throws, every reachable state owns exactly the view it holds, so at most one view is live |
| UseMap.FailedTeardownLeaks | src/hooks/useMap.ts:43-51 | a destroy that throws during retry leaves two views live |
| UseMap.MapHook.InitializeMap | src/hooks/useMap.ts:25-89 | the refs and state change as `Start` says; the pending view is returned when one was created |
| UseMap.MapHook.FinishInitializeMap | src/hooks/useMap.ts:91-132 | the state changes as `Complete` says |
| UseMap.MapHook.Retry | src/hooks/useMap.ts:154-158 | the state changes as `Retried` says |
| UseMap.MapHook.Unmount | src/hooks/useMap.ts:135-146 | the state changes as `TornDown` says |
| App.Organisation | src/App.tsx:29-30 | the URL parameter when it is truthy, else "copper-string"; never empty |
| App.MockConfig | src/App.tsx:81-102 | the stored configuration carries the organisation, the demo client id and the portal, and has no default map |
| App.BootDispatches | src/App.tsx:78-115 | the configuration is dispatched first; the two auth thunks follow, in order, exactly when the SDK is present |
| App.ReadinessStep | src/App.tsx:25-76 | the latch never clears; mounting sets it or arms both timers; the timeout sets it; a successful interval check sets it and clears both timers; a stale timer does nothing; cleanup clears the timers |
| App.ReadinessRun | src/App.tsx:25-76 | any sequence of mount, timer and cleanup events keeps the timers armed while the shell waits |
| App.LatchNeverResets | src/App.tsx:40-69 | once `arcgisLoaded` is set it stays set for any later events |
| App.ReachableReadinessArmed | src/App.tsx:25-76 | in every reachable state a mounted shell that is still waiting has both timers scheduled (a corollary of `ReadinessRun`) |
| App.TimeoutEndsWaiting | src/App.tsx:40-45 | in any reachable mounted state, the timeout firing sets the latch |
| App.Gate | src/App.tsx:117-166 | the spinner is shown exactly while the configuration is loading or missing or the SDK is not ready; the shell shows the drawer, the modal and the collapsed navigation from their flags |
| App.ShellAfterBoot | src/App.tsx:104-124 | once the mock configuration is stored and the latch is set, the shell is rendered despite any later config `setError` or `setLoading(false)` (a later `setLoading(true)` would bring the spinner back; the code itself dispatches neither after `setConfig`) |
| App.AppShell.LoadAppConfig | src/App.tsx:78-115 | the config store holds the mock configuration; the auth store and OAuth registration change exactly as the two thunks do when the SDK is present, and stay untouched otherwise |
| App.AppShell.Mount | src/App.tsx:25-76 | stores the mock configuration for the URL organisation and dispatches as `loadAppConfig` does: the config log gains `setConfig`; with the SDK, the auth store reduces the silent check's dispatches and the registration is `initializeOAuth`'s; without it, the auth store and registration are untouched; the latch moves as the mount event does |
| App.AppShell.TimeoutFires | src/App.tsx:40-45 | the latch moves as the timeout event does; nothing is dispatched and the modal flag is kept |
| App.AppShell.IntervalFires | src/App.tsx:65-69 | the latch moves as the interval event does; nothing is dispatched and the modal flag is kept |
| App.AppShell.Unmount | src/App.tsx:72-75 | the latch moves as the cleanup does; nothing is dispatched and the modal flag is kept |
| App.AppShell.SetShowAuthModal | src/App.tsx:130-166 | only the modal flag changes: the latch is kept and nothing is dispatched |
| MapsPanel.ThumbnailUrl | src/components/Panels/MapsPanel.tsx:52 | the URL is empty exactly when the result has no thumbnail; otherwise it is the item's info resource with the token |
| MapsPanel.TokenText | src/components/Panels/MapsPanel.tsx:52 | a present token is interpolated as is; a missing one prints as "undefined" |
| MapsPanel.ToMapItem | src/components/Panels/MapsPanel.tsx:48-56 | identity, title, owner and dates are carried over; a falsy snippet becomes "" |
| MapsPanel.ToMapItems | src/components/Panels/MapsPanel.tsx:48-56 | one item per result, in order |
| MapsPanel.ToMapItemsAppend | src/components/Panels/MapsPanel.tsx:48-56 | the conversion distributes over concatenation |
| MapsPanel.LoadDispatches | src/components/Panels/MapsPanel.tsx:34-65 | loading is raised first and lowered last; the converted list is dispatched in between exactly on success |
| MapsPanel.LoadEffect | src/components/Panels/MapsPanel.tsx:34-65 | after a load the slice is idle, the list is replaced on success and kept on failure, and nothing else changes |
| MapsPanel.MapsPanel.LoadUserMaps | src/components/Panels/MapsPanel.tsx:34-65 | does nothing without the SDK; otherwise the store reduces the load dispatches, and the local list and the slice list are replaced together on success and kept on failure |
| MapsPanel.MapsPanel.HandleMapSelect | src/components/Panels/MapsPanel.tsx:67-69 | selects the map in the slice and changes nothing else |
| ToolsPanel.Tools | src/components/Panels/ToolsPanel.tsx:27-135 | the table has twelve tools |
| ToolsPanel.Categories | src/components/Panels/ToolsPanel.tsx:137-143 | "all" first, then the four categories in declared order |
| ToolsPanel.OfCategory | src/components/Panels/ToolsPanel.tsx:188-196 | the filtered list is never longer than the input and holds only tools of the category |
| ToolsPanel.OfCategoryMembers | src/components/Panels/ToolsPanel.tsx:188-196 | a tool is in a category's filtered list exactly when it is in the list and has that category |
| ToolsPanel.OfCategoryAppend | src/components/Panels/ToolsPanel.tsx:188-196 | the filter distributes over concatenation, so it keeps the original order |
| ToolsPanel.FilteredTools | src/components/Panels/ToolsPanel.tsx:188-190 | "all" shows every tool; a category shows its tools |
| ToolsPanel.GroupOf | src/components/Panels/ToolsPanel.tsx:192-196 | a group's count is the length of its tool list |
| ToolsPanel.ToolsByCategory | src/components/Panels/ToolsPanel.tsx:192-196 | four groups in category order, each holding that category's tools and their count |
| ToolsPanel.CategoriesPartition | src/components/Panels/ToolsPanel.tsx:14-22 | the four category filters split any tool list |
| ToolsPanel.GroupCountsSumToTotal | src/components/Panels/ToolsPanel.tsx:192-196 | the accordion counts add up to the number of tools |
| ToolsPanel.ButtonCountsMatchGroups | src/components/Panels/ToolsPanel.tsx:218-226 | the count on each category button equals its group's count |
| ToolsPanel.ToolIdsDistinct | src/components/Panels/ToolsPanel.tsx:27-135 | tool ids are pairwise distinct, so they work as list keys |
| ToolsPanel.Launch | src/components/Panels/ToolsPanel.tsx:145-167 | launching does nothing exactly for coming-soon tools, and otherwise takes the tool's category branch |
| ToolsPanel.StatusChip | src/components/Panels/ToolsPanel.tsx:169-186 | available is green "Ready", beta is yellow "Beta", coming-soon is gray "Soon" |
| ToolsPanel.StatusChipInjective | src/components/Panels/ToolsPanel.tsx:169-186 | the chip text tells the statuses apart |
| ToolsPanel.RowOf | src/components/Panels/ToolsPanel.tsx:244-280 | a row is disabled exactly for coming-soon tools, with "clock"/"Soon" or "play"/"Launch" |
| ToolsPanel.EnabledRowsLaunch | src/components/Panels/ToolsPanel.tsx:145-280 | a row is enabled exactly when launching it does something |
| Drawer.RenderContent | src/components/Layout/Drawer.tsx:27-53 | the placeholder is rendered exactly when there is no content |
| Drawer.Title | src/components/Layout/Drawer.tsx:55-74 | the title is "Panel" exactly when there is no content |
| Drawer.Icon | src/components/Layout/Drawer.tsx:76-95 | the icon is "panel" exactly when there is no content |
| Drawer.KeysAreDistinguished | src/components/Layout/Drawer.tsx:27-95 | different keys give different panels, titles and icons |
| Drawer.SwitchesAgree | src/components/Layout/Drawer.tsx:27-95 | the three switches agree on when the placeholder is used |
| Drawer.HandleClose | src/components/Layout/Drawer.tsx:23-25 | dispatches only `closeDrawer`; the drawer is then closed and shows the placeholder |
| SideNav.NavigationItems | src/components/Layout/SideNav.tsx:21-29 | the menu has seven items |
| SideNav.MenuKeys | src/components/Layout/SideNav.tsx:21-29 | the item keys in menu order |
| SideNav.ItemsCoverEveryKeyOnce | src/components/Layout/SideNav.tsx:21-29 | each drawer key appears in the menu exactly once |
| SideNav.ItemsMatchDrawer | src/components/Layout/SideNav.tsx:21-29 | each item's label and icon are the drawer's title and icon for its panel |
| SideNav.Navigation | src/components/Layout/SideNav.tsx:31-37 | help starts the tour; any other item opens the drawer on its own key, never on null |
| SideNav.NavigationEffect | src/components/Layout/SideNav.tsx:31-56 | help leaves the drawer alone; an item opens the drawer and becomes the only active item |
| SideNav.Active | src/components/Layout/SideNav.tsx:56 | the string comparison of the drawer content with the item id holds exactly when the item's own key is shown |
| UiSlice.KeyIdInjective | src/store/slices/uiSlice.ts:3 | the seven content strings are distinct, so comparing strings compares keys |
| SideNav.AtMostOneActive | src/components/Layout/SideNav.tsx:56 | at most one menu item is highlighted |
| SideNav.HandleNavigation | src/components/Layout/SideNav.tsx:31-37 | the store reduces the navigation action |
| Common.ContainsIffOccurs | src/components/Auth/AuthModal.tsx:93-97 | the substring test `includes` holds exactly when the substring occurs at some index |
| Common.DecimalString | src/components/Auth/AuthModal.tsx:62 | a status code is printed as a non-empty string of decimal digits, one digit exactly below 10, with no leading zero except for zero itself |
| Common.DecimalStringValue | src/components/Auth/AuthModal.tsx:62 | reading the printed digits back gives the status code |

## Left out

- Rendering, JSX structure, styling and Calcite component behaviour are not modelled. Only the values that decide what is shown are kept: flags, labels, icons and counts.
- SDK internals are not modelled. The identity manager, `OAuthInfo`, `MapView`, `Basemap`, widgets, `fetch` and `response.json()` are represented only by their settled outcomes, passed as inputs. The search query URL in `loadUserMaps` and the profile request URL are not modelled.
- Real time is not modelled. `setTimeout` and `setInterval` are events (`TimeoutFired`, `IntervalFired`) that may occur in any order.
- React closures are not modelled. The timeout callback reads a stale `arcgisLoaded`; it sets the flag either way, so the outcome is the same. `retry` calls an `initializeMap` that captured the old `mapInitialized`; in the model retry re-initialises from the cleared flag.
- Concurrent `initializeMap` calls interleaving across their awaits are modelled only through the returned pending handle. Each call is split in two steps: `InitializeMap` and `FinishInitializeMap`.
- `UseMap.Start` does not model the unused `webMapId` option or the `WebMap` branch, which is commented out in the code (the code always builds a basemap-only map). The code is followed here.
- `AuthModal.Modal.PressSignIn` models `findOAuthInfo` and `registerOAuthInfos` as never throwing synchronously.
- `AuthSlice.InitializeOAuth` models only the registration: an exception in the thunk is only logged, so it leaves the registration unchanged.
- `AuthSlice.CheckExistingAuth` applies the results of both awaits at once. It does not model other dispatches interleaving between them.
- `App.AppShell.LoadAppConfig` does not model the try/catch: nothing inside it can throw in the code.
- The OAuth callback page is not modelled: the code only names `/oauth-callback.html` as the redirect target, and has no route or handler of its own for the redirect back.
- The `MapContainer` component's own 30-second timer is not modelled; it is outside the hook.
- The `as any` casts around the drawer content are not modelled. Here the content always has the `DrawerContent` type, so the "unrecognised value" branch of the three drawer switches is the `null` case.
- `ToolsPanel.FilteredTools` models `activeCategory` as a `Selection` datatype: the category buttons only ever set one of the five ids, so an arbitrary string is not modelled.
- `MapsPanel.MapsPanel.LoadUserMaps` treats a response without a `results` array as a rejected request, which is where the code ends up (the `catch` block). Malformed individual results are not modelled.
- The presentational parts of `MapsPanel` are not modelled: the selected-item highlighting and the empty-list message.
