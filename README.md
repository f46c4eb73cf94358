# Esports fan site: router and page-change controller

This project models the two parts of the site's JavaScript that have stateable behaviour. It then proves properties of that model with Dafny.

- **The client-side router** (`js/router.js`). It holds a fixed table from URL paths to page ids, with `home` as the fallback. It pushes a history entry only when the path differs from the current location. It clears the `active` class on every `.nav-link` and every `.page`, then sets it on at most one element of each. It dispatches one `pageChange` event per navigation. It re-navigates on `popstate`.
- **The `GamingUniverse` controller** (`js/main.js`). `handlePageChange` cancels the pending animation frame. It then empties the scene's child list in a loop, runs the scene builder the page id selects (home by default), records the page and restarts the loop. The same file holds the click guard on navigation links and hero buttons, and the three-flag state machine of the mobile menu.

The browser is abstracted:

- The document becomes two sequences: elements with an `id` (`Section`: id, has class `page`, active) and elements with an `href` (`Link`: href, has class `nav-link`, active). Both are in document order.
- Session history becomes a sequence of paths, the index of the current entry and the current pathname. `pushState` discards the entries after the current one, appends the new entry and moves the location to it. The back and forward buttons (`Window.Traverse`) move the current index and the location to an existing entry.
- The `pageChange` events become a log of their `detail.page` values.
- `requestAnimationFrame` and `cancelAnimationFrame` become a set of pending frame requests plus a counter for fresh ids. Each pending request is one running animation loop.
- Scene builders become fixed lists of opaque drawables (`Scene.Recipe`). Each drawable is a mesh, a particle system or a light, tagged by how `animate` would move it.

Modules:

- `wrappers.dfy`: `Option`, string truthiness, first-match search.
- `routing.dfy`: `js/router.js`.
- `scene.dfy`: the builder table and the `switch` in `handlePageChange`.
- `controls.dfy`: the click guard and the mobile menu.
- `universe.dfy`: the `GamingUniverse` class, its wiring to the router, and the scenarios below.

## Model

| member | source | states |
|---|---|---|
| `Wrappers.FirstIndex` | js/router.js:73 | The index returned is the first element satisfying the query, and none is returned exactly when no element does. This is what `getElementById`/`querySelector` return. |
| `Wrappers.FirstIndexAgrees` | js/router.js:59-60 | Two documents that agree on the query have the same first match. Clearing `active` flags therefore does not change which element a later query finds. |
| `Routing.Resolve` | js/router.js:36 | A path in the table resolves to its mapped id, and every other path resolves to `home`. The result is always in the table's range. This holds for `routes[path] \|\| 'home'` because no table value is falsy. |
| `Routing.RouteTableRange` | js/router.js:3-19 | The table's range is exactly the fourteen page ids. |
| `Routing.PageIdRoute` | js/router.js:3-19 | For every page id `p`, the table maps `"/" + p` to `p`. |
| `Routing.PageHrefsRoundTrip` | js/router.js:36 | Every page id resolves back to itself from the path `"/" + id`, the href that marks its nav link. |
| `Routing.RouteKeysNamePages` | js/router.js:4-18 | Every key is `"/"` or `"/"` followed by the id it maps to. So `/` and `/home` both give `home`. |
| `Routing.ChosenLink` | js/router.js:59-60 | The chosen element has href `/p` or `#p`. If any element has `/p`, the chosen one has `/p` and no earlier element has `/p`. If the chosen one has `#p`, no element has `/p` and no earlier element has `#p`. Nothing is chosen exactly when no element has either href. |
| `Routing.ShowSectionsActive` | js/router.js:66-76 | After `showPage(id)`, an element is active exactly when it is the first element with that id, or it is not a `.page` and was already active. Ids and classes are unchanged. |
| `Routing.ShowSectionsSingle` | js/router.js:68-76 | After `showPage(id)`, at most one `.page` is active, and its id is `id`. |
| `Routing.ShowSectionsTarget` | js/router.js:73-76 | When some element has id `id`, the first such element is active after `showPage(id)`. |
| `Routing.MarkLinksActive` | js/router.js:52-64 | After `updateNavigation(p)`, an element is active exactly when it is the chosen one, or it is not a `.nav-link` and was already active. |
| `Routing.MarkLinksSingle` | js/router.js:54-63 | After `updateNavigation(p)`, at most one `.nav-link` is active, and its href is `/p` or `#p`. |
| `Routing.ShowSectionsIdempotent` | js/router.js:66-76 | Showing the same page twice leaves the sections as showing it once. |
| `Routing.MarkLinksIdempotent` | js/router.js:52-64 | Marking the links for the same page twice leaves them as marking them once. |
| `Routing.Window.constructor` | js/router.js:32 | A freshly loaded page: the history is the one loaded entry, it is the current entry, and no event has been dispatched yet. |
| `Routing.Window.PushState` | js/router.js:40 | `pushState` keeps the entries up to the current one, discards those after it, appends `path` and makes it the current entry and pathname. |
| `Routing.Window.Traverse` | js/router.js:27-28 | Back or forward makes an existing entry current, moves the location to it and leaves history unchanged. |
| `Routing.Router.constructor` | js/router.js:2-33 | The router starts on the resolved page id of the loaded location. It pushes no history and dispatches one `pageChange` event. |
| `Routing.Router.NavigateToPage` | js/router.js:35-50 | `currentPage` is the resolved id, not the raw path. When the pathname differed, the entries after the current one are discarded and `path` is appended as the new current entry. Otherwise history is unchanged. The links and sections are marked for the resolved id. Exactly one event carrying the resolved id is appended. |
| `Routing.Router.UpdateNavigation` | js/router.js:52-64 | The loop clears every `.nav-link`, then the first `/p` element (else the first `#p` element) is set active. The result is `MarkLinks`. |
| `Routing.Router.ShowPage` | js/router.js:66-80 | The loop hides every `.page`, then the element with id `pageName` is shown. The result is `ShowSections`, and one `pageChange` event is appended. |
| `Routing.Router.Navigate` | js/router.js:83-85 | Has the same specification as `NavigateToPage`. |
| `Routing.Router.OnPopState` | js/router.js:27-29 | Re-navigates to the current pathname, so history, the current entry and the pathname are unchanged. |
| `Routing.NavigateTwice` | js/router.js:35-50 | Navigating to one path twice changes history as one navigation does. The document ends as after one navigation, and two events are dispatched. |
| `Scene.Repeat` | js/main.js:298-319 | `n` copies of one drawable, as one builder loop adds them. |
| `Scene.ExpandLength` | js/main.js:294-821 | A batch list adds as many objects as its counts sum to. |
| `Scene.SceneSizes` | js/main.js:294-821 | Every builder adds exactly its loop counts: home 16, dota2 9, csgo2 12, valorant 8, league 11, fortnite 20, overwatch 15, pubg 18, news 12, tournaments 10, streams 14, merchandise 16, contacts 12, about 15. |
| `Scene.HomeScene` | js/main.js:294-324 | Home adds 15 drifting spheres and then one ambient light. |
| `Scene.Dota2Scene` | js/main.js:326-379 | Dota2 adds one particle system and then 8 drifting orbs. |
| `Scene.Csgo2Scene` | js/main.js:381-424 | Csgo2 adds 12 shapes turning on three axes. |
| `Scene.SelectBuilder` | js/main.js:243-288 | Each of the fourteen case labels selects its own builder. Any other id selects the home builder. |
| `Scene.SelectBuilderOwnPage` | js/main.js:243-288 | Every builder is selected by its page id. Only that id selects a non-home builder. |
| `Controls.NavLinkClick` | js/main.js:118-126 | A nav-link click always prevents the default. It calls `navigate(href)` exactly when `href` is present, non-empty and not `#`. |
| `Controls.ButtonClick` | js/main.js:129-137 | A hero-button click prevents the default exactly when it navigates. It navigates under the same guard. |
| `Controls.ClicksAgree` | js/main.js:121-134 | Links and buttons navigate for the same hrefs. They differ only when the guard refuses. |
| `Controls.HamburgerFlips` | js/main.js:153-164 | A hamburger click flips the hamburger and menu flags, and sets `menu-open` to the menu's new flag. |
| `Controls.HamburgerTwice` | js/main.js:153-164 | Two hamburger clicks restore the flags exactly when `menu-open` already matched the menu flag. |
| `Controls.ClosingEvents` | js/main.js:166-193 | A link click always closes all three flags. An outside click or Escape closes them when the menu is open and otherwise changes nothing. |
| `Controls.StepKeepsInStep` | js/main.js:153-193 | No single event breaks agreement of the three flags. |
| `Controls.RunKeepsInStep` | js/main.js:153-193 | From agreeing flags, the flags still agree after any sequence of events. |
| `Controls.ClosedStaysInStep` | js/main.js:148-200 | Starting with all flags false, the three flags stay equal after any sequence of events. |
| `Controls.MobileMenu.OnHamburgerClick` | js/main.js:153-164 | Updates the fields in place as `Step` says for a hamburger click. |
| `Controls.MobileMenu.OnLinkClick` | js/main.js:167-173 | Clears all three flags. |
| `Controls.MobileMenu.OnDocumentClick` | js/main.js:176-184 | Closes only an open menu, and only on a target outside the hamburger and the menu. |
| `Controls.MobileMenu.OnKeyDown` | js/main.js:187-193 | Closes only an open menu, and only on `Escape`. |
| `Universe.GamingUniverse.constructor` | js/main.js:5-39 | As written: the router resolves the loaded location and marks the links and sections for that page, without touching history. The scene is home nevertheless (see Findings). One loop runs. |
| `Universe.GamingUniverse.Listening` | js/main.js:143-145 | Corrected start-up: the router's navigation is the same as in the constructor, and the scene is built for the page the router resolved. One loop runs. |
| `Universe.GamingUniverse.Animate` | js/main.js:829-830 | `animate` requests a fresh frame id, stores it in `animationId` and adds one pending request. |
| `Universe.GamingUniverse.Tick` | js/main.js:830 | Running a pending frame replaces its request with a fresh one. The number of running loops is unchanged, and one loop stays one loop. |
| `Universe.GamingUniverse.ClearScene` | js/main.js:238-240 | After the `while` loop the child list is empty. |
| `Universe.GamingUniverse.AddObjects` | js/main.js:298-319 | A builder loop appends `n` copies of its object. |
| `Universe.GamingUniverse.Build` | js/main.js:294-821 | Each builder appends exactly `SceneOf(b)`. |
| `Universe.GamingUniverse.HandlePageChange` | js/main.js:231-292 | A truthy `animationId` is cancelled before a fresh id is stored. The scene holds exactly the selected builder's objects, and `currentPage` is the argument as given. If at most one loop ran before, exactly one runs after. |
| `Universe.GamingUniverse.StartHomeAnimation` | js/main.js:823-827 | As written: the home objects are appended to the current scene, and one more loop starts beside the running one. |
| `Universe.GamingUniverse.ResumeAnimation` | js/main.js:823-827 | Corrected: the pending frame is cancelled and replaced by a fresh one, so one loop stays one loop. The scene is exactly the current page's scene, and the page is unchanged. |
| `Universe.GamingUniverse.DeliverPageChange` | js/main.js:143-145 | The `pageChange` listener runs `handlePageChange` on the latest event's page, and the scene is that page's scene. The pending frame is cancelled and a fresh one replaces it, so the pending set loses the old id and gains the new one. |
| `Universe.GamingUniverse.NavigateTo` | js/main.js:123 | After `router.navigate(path)` and its event, the scene's page equals the router's resolved page. The pending frame is cancelled and a fresh one replaces it, so the pending set loses the old id and gains the new one. |
| `Universe.GamingUniverse.OnNavLinkClick` | js/main.js:118-126 | A guarded click navigates and syncs the scene, and replaces the pending frame by a fresh one. A refused click changes nothing, and the default is prevented either way. |
| `Universe.GamingUniverse.OnHistoryTraverse` | js/router.js:27-29 | Back or forward keeps history and makes the chosen entry current. It re-resolves the location, marks the links and sections for it, logs one event and redraws the scene for the resolved page. The pending frame is cancelled and a fresh one replaces it, so the pending set loses the old id and gains the new one. |
| `Universe.RoutedPagesHaveScenes` | js/main.js:243-285 | Every page id in the route table has a scene builder of its own. |
| `Universe.ValorantMarked` | js/router.js:52-76 | In a document holding home and valorant sections and links with home active, marking valorant leaves exactly the valorant section and link active. |
| `Universe.BackToHome` | js/main.js:121-123 | Load `/`, click to `/dota2`, press back, all before the loading screen finishes: router and scene are on home, one loop runs, history is `["/", "/dota2"]` and its first entry is current. |
| `Universe.ForwardEntryDropped` | js/router.js:39-41 | Navigating to `/csgo2` after that back press leaves history `["/", "/csgo2"]`: the forward entry `/dota2` is gone. |
| `Universe.TwoLoopsAfterLoading` | js/main.js:823-827 | After the loading screen finishes, two loops run and the home objects are present twice. |
| `Universe.LingeringLoop` | js/main.js:233-235 | A page change after that cancels only one of the two loops. |
| `Universe.DotaAfterLoading` | js/main.js:233-235 | After the loading screen has finished, a click to `/dota2` replaces only the latest frame: two loops run, and history is `["/", "/dota2"]`. |
| `Universe.BackToHomeAfterLoading` | js/main.js:106 | The back-button trip after the loading screen has finished, as it normally has before a user clicks: router and scene are on home, but two loops still run. |
| `Universe.BackToHomeResumed` | js/main.js:823-827 | The same trip with the corrected start-up and loading finish: exactly one loop runs, on the home scene. |
| `Universe.DirectLoadShowsHome` | js/main.js:13 | Loading `/valorant` as written: the router is on valorant and the valorant section and nav link are the active ones, while the background is the home scene. |
| `Universe.DirectLoadShowsValorant` | js/main.js:143-145 | The corrected start-up and loading finish show the valorant section, nav link and scene, with exactly one loop. |

## Findings

| source | as written | input that shows it | evidently intended | confidence | as-written member | corrected member |
|---|---|---|---|---|---|---|
| js/main.js:823-827 | `startHomeAnimation` adds the home objects and calls `animate()` without cancelling the pending frame or clearing the scene. By then `init()` has already run `handlePageChange()` (js/main.js:28). | Loading finishes (js/main.js:106) after start-up: two frame requests are pending and the scene holds 32 objects. A later page change cancels only one loop (js/main.js:233-235). | One animation loop, with the scene of the page being shown built once, as `handlePageChange(this.currentPage)` gives. | medium, not executed | `Universe.GamingUniverse.StartHomeAnimation` (witnesses `Universe.TwoLoopsAfterLoading`, `Universe.LingeringLoop`, `Universe.BackToHomeAfterLoading`) | `Universe.GamingUniverse.ResumeAnimation` (witness `Universe.BackToHomeResumed`) |
| js/main.js:13 | The router is constructed before the `pageChange` listener is registered (js/main.js:143-145). Its initial `navigateToPage` dispatches the event to nobody, and `init()` then builds the home scene. | Load `/valorant` directly: the valorant section and nav link are active, but the background is the home scene. | The scene of the page the router resolved. | medium, not executed | `Universe.GamingUniverse.constructor` (witness `Universe.DirectLoadShowsHome`) | `Universe.GamingUniverse.Listening`, with `Universe.GamingUniverse.ResumeAnimation` for the loading finish (witness `Universe.DirectLoadShowsValorant`) |

## Left out

- Three.js: the camera, renderer, geometries, materials, resize handling and `render` calls are foreign library calls. Each builder is kept only as the list of objects it adds.
- The per-frame motion in `animate` (js/main.js:833-851) is left out: the upward drift, the wrap from 10 to -10 and the rotation increments are floating-point updates. Each drawable keeps only a tag of which branch would move it.
- Every `Math.random` choice is left out, because it is nondeterministic: sizes, colours, shapes chosen among several, positions and speeds.
- The loading screen's `setInterval` progress, the 5-second `setTimeout` fallback, and the gsap fades and card hover tweens are timers and UI effects. They are left out. Only their effect of calling `startHomeAnimation` is modelled, in the findings witnesses.
- `showLoadingScreen` without its elements starts the home animation at once, before `handlePageChange()`. That path is left out with the loading screen. Its extra loop is cancelled by the `handlePageChange()` that follows.
- `setupThreeJS` failing (js/main.js:70-72) is left out: the model always has a scene.
- `setupMobileNavigation` without a `.hamburger` or `.nav-menu` installs no listeners. The model assumes both exist.
- Lookups of inherited object properties (a path such as `constructor` in `this.routes[path]`) are not modelled. The table is a plain map.
- URL resolution by `pushState` is not modelled. The model sets the pathname to the given string, so a relative path or a `#fragment` href is not resolved against the current URL.
- The vite `base` of `/Agent_p_1/` is not modelled, and neither are the deployed pathnames it produces. vite.config.js is build configuration.
- Real DOM querying and `CustomEvent` objects are not modelled. An element with both an `id` and an `href` appears once in each sequence, and the two entries are independent.
- `handlePageChange`'s default argument is not modelled as such. Its one call without an argument (js/main.js:28) is modelled as a call with `"home"`.
