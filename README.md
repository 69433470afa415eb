# Layout selection and alert broadcasting of fikiri-web

A Dafny model of two small pieces of the fikiri-web Angular front end:

- **`LayoutComponent`** (`src/app/layout/layout.component.ts`), the application
  shell that picks the colour scheme, the theme and the layout. The scheme
  callback resolves a configured `auto` scheme against the
  `(prefers-color-scheme: dark)` media query and applies scheme and theme as
  classes on the document body. `_updateLayout` descends `firstChild` links to
  the leaf route, starts from `config.layout`, lets a truthy `layout` query
  parameter override it (writing it back into the shared configuration), then
  walks the leaf's `pathFromRoot` from root to leaf so that the deepest route
  whose `data.layout` is truthy wins. `_updateScheme` removes both scheme
  classes and adds the current one; `_updateTheme` only adds the theme class
  (the comment at line 152 announces a removal of the previous theme's class
  that the code does not perform; the model keeps the code's behaviour and
  proves that the previous class stays).
- **`AlertService`** (`src/@core/components/alert/alert.service.ts`), two
  `ReplaySubject(1)` channels, `onShow` and `onDismiss`. `show(name)` and
  `dismiss(name)` ignore an empty name and otherwise emit it on their own
  channel.

Files:

- `wrappers.dfy`: module `Wrappers`, the `Option` type used for absent values.
- `layout.dfy`: module `Layout`. The route model (`ActivatedRoute`, `Segment`,
  `Route`, `RouteData`) is read-only data handed over by the router. The shared
  configuration `AppConfig` and the component `LayoutComponent` are classes
  whose methods update fields. The pure specification functions are
  `ResolveOptions`, `SchemeClasses`, `ThemeClasses`, `StartLayout`, `Walk`, `ResolveLayout`
  and `Deepest`, with lemmas about them.
- `alert.dfy`: module `Alert`. `ReplaySubject` holds the one value it keeps
  (`buffer`) and a ghost `history` of its emissions. `Received(history,
  joinedAt)` says what a subscriber that joined after `joinedAt` emissions has
  received. `AlertService` owns the two channels.

Two details of the code shape the model:

- The code reads `this.config.layout` (line 95) before it checks `this.config`
  (line 102). So `UpdateLayout` requires a configuration, and the check at line
  102 cannot fail.
- The query parameter and the route data only count when they are truthy
  (lines 100, 126). An empty `layout` value is ignored like an absent one. It is
  not enough for the `layout` key to be present.

## Model

| member | source | states |
|---|---|---|
| `Layout.ResolveOptions` | src/app/layout/layout.component.ts:37-48 | the theme is kept; a configured `auto` becomes `dark` exactly when the dark preference holds and `light` exactly when it does not; any other scheme is kept |
| `Layout.ResolvedSchemeIsConcrete` | src/app/layout/layout.component.ts:43-45 | a known configured scheme (`auto`, `dark`, `light`) always resolves to `dark` or `light`, never `auto` |
| `Layout.ExplicitSchemeIgnoresMedia` | src/app/layout/layout.component.ts:38-45 | with a scheme other than `auto` the media preference does not affect the result |
| `Layout.SchemeClasses` | src/app/layout/layout.component.ts:138-144 | after the scheme update the class set contains the scheme, does not contain the other of `light`/`dark`, and every other class is present exactly when it was before |
| `Layout.SchemeClassesIdempotent` | src/app/layout/layout.component.ts:140-143 | applying the same scheme twice leaves the same class set as applying it once |
| `Layout.ThemeClasses` | src/app/layout/layout.component.ts:151-156 | after the theme update the class set contains the theme, and every other class is present exactly when it was before |
| `Layout.PreviousThemeRetained` | src/app/layout/layout.component.ts:151-156 | applying `ThemeClasses` with theme `t1` and then with `t2` leaves both classes and every earlier class present |
| `Layout.ExactlyOneSchemeClass` | src/app/layout/layout.component.ts:50-57 | after a presentation update with a known scheme and a theme that is not `light`/`dark`, exactly one of `light`/`dark` is present, and it is the resolved scheme |
| `Layout.Leaf` | src/app/layout/layout.component.ts:89-92 | following `firstChild` links as far as they go ends at a route without a first child |
| `Layout.LeafPath` | src/app/layout/layout.component.ts:89-92 | the `firstChild` descent ends at a route without a first child; on a well-formed route tree the leaf's `pathFromRoot` extends the starting route's path and ends in the leaf itself |
| `Layout.StartLayout` | src/app/layout/layout.component.ts:95-105 | the layout before the walk is a truthy query parameter if there is one, else the configured layout |
| `Layout.DeclaredLayout` | src/app/layout/layout.component.ts:126-128 | the layout a declaring segment contributes is its `routeConfig.data.layout`, which is never empty |
| `Layout.Overwrite` | src/app/layout/layout.component.ts:126-128 | one step of the walk: a declaring segment's layout replaces the running layout; any other segment leaves it as it is |
| `Layout.Walk` | src/app/layout/layout.component.ts:124-130 | the root-to-leaf walk's result is the starting layout or the layout declared by one of the segments |
| `Layout.ResolveLayout` | src/app/layout/layout.component.ts:94-130 | the resolved layout is the configured layout, a truthy query parameter, or the layout declared by one of the segments |
| `Layout.Deepest` | src/app/layout/layout.component.ts:124-130 | reference definition: the index of a declaring segment with no declaring segment after it, or none when no segment declares a layout |
| `Layout.WalkWithoutDeclaration` | src/app/layout/layout.component.ts:124-130 | a walk over segments none of which declares a layout keeps the starting layout |
| `Layout.WalkDeepestWins` | src/app/layout/layout.component.ts:124-130 | if segment `k` declares a layout and no deeper segment does, the walk yields segment `k`'s layout whatever came before |
| `Layout.ResolveLayoutPrecedence` | src/app/layout/layout.component.ts:94-130 | the resolved layout is the deepest declaring segment's layout; without one, a truthy query parameter; without that, the configured layout |
| `Layout.WalkSkipsSilentSegment` | src/app/layout/layout.component.ts:126 | a segment without route configuration, without data, or with an absent or empty layout can be removed from anywhere in the path without changing the result |
| `Layout.ResolveLayoutIdempotent` | src/app/layout/layout.component.ts:99-105 | resolving again after the query parameter was written back yields the same layout and does not change the configuration again |
| `Layout.SectionAndLeafExamples` | src/app/layout/layout.component.ts:94-130 | concrete chains: a section's `classy` is inherited by a leaf without a layout; a leaf's `modern` beats the section; a `compact` query parameter beats the configured `default`; an empty query parameter is ignored |
| `Layout.LayoutComponent.constructor` | src/app/layout/layout.component.ts:24-27 | a fresh component has no configuration yet and keeps the given body class list |
| `Layout.LayoutComponent.ApplyPresentation` | src/app/layout/layout.component.ts:37-58 | the stored scheme and theme are the resolved options, and the body class set becomes `ThemeClasses` of `SchemeClasses` of the old set |
| `Layout.LayoutComponent.UpdateScheme` | src/app/layout/layout.component.ts:138-144 | the body class set becomes `SchemeClasses` of the old set and the current scheme |
| `Layout.LayoutComponent.UpdateTheme` | src/app/layout/layout.component.ts:151-156 | the body class set becomes `ThemeClasses` of the old set and the current theme: the theme added, nothing removed |
| `Layout.LayoutComponent.UpdateLayout` | src/app/layout/layout.component.ts:87-131 | the layout becomes `ResolveLayout` of the old configured layout, the leaf's query parameter and the leaf's `pathFromRoot`; `config.layout` becomes the query parameter when it is truthy and is otherwise unchanged; route data never writes to the configuration |
| `Layout.LayoutComponent.OnConfig` | src/app/layout/layout.component.ts:61-67 | the configuration is stored, then the layout is resolved from it as in `UpdateLayout` |
| `Layout.LayoutComponent.OnNavigationEnd` | src/app/layout/layout.component.ts:75-78 | after a navigation the layout is resolved again from the stored configuration as in `UpdateLayout` |
| `Alert.LastOf` | src/@core/components/alert/alert.service.ts:6-7 | the value a replay-depth-1 channel retains is absent exactly when nothing has been emitted, else the most recent emission |
| `Alert.Received` | src/@core/components/alert/alert.service.ts:6-7 | a subscriber that joined after `joinedAt` emissions receives the contiguous suffix of the history that starts at the value retained when it joined |
| `Alert.LateSubscriberSeesLast` | src/@core/components/alert/alert.service.ts:6-7 | a subscriber joining now receives at most one value: nothing before any emission, else the most recent emission |
| `Alert.ExistingSubscriberSeesNext` | src/@core/components/alert/alert.service.ts:6-7 | a subscriber present for an emission receives it after everything it had already received |
| `Alert.FirstSubscriberSeesHistory` | src/@core/components/alert/alert.service.ts:6-7 | a subscriber present from the start receives every emission in emission order |
| `Alert.InOrderDelivery` | src/@core/components/alert/alert.service.ts:51-59 | two emissions `a` then `b` reach a subscriber present for both as `a` then `b`, after what it had before |
| `Alert.ReplaySubject.constructor` | src/@core/components/alert/alert.service.ts:6-7 | a new channel retains nothing and has emitted nothing |
| `Alert.ReplaySubject.Next` | src/@core/components/alert/alert.service.ts:43 | the emitted name is appended to the history and becomes the one retained value |
| `Alert.ReplaySubject.Replay` | src/@core/components/alert/alert.service.ts:6-7 | what a new subscriber receives at once is at most one value and agrees with `Received` at the current end of the history |
| `Alert.AlertService.constructor` | src/@core/components/alert/alert.service.ts:6-7 | the two channels are distinct, fresh and empty |
| `Alert.AlertService.Dismiss` | src/@core/components/alert/alert.service.ts:36-44 | an empty name changes nothing; a non-empty name becomes the dismiss channel's retained value and is appended to its history; the show channel is unchanged |
| `Alert.AlertService.Show` | src/@core/components/alert/alert.service.ts:51-59 | an empty name changes nothing; a non-empty name becomes the show channel's retained value and is appended to its history; the dismiss channel is unchanged |

## Left out

- The RxJS wiring in `ngOnInit` (`combineLatest`, `filter(NavigationEnd)`, `takeUntil`, lines 31-78) is event plumbing. Only what each callback computes is modelled: `ApplyPresentation`, `OnConfig` and `OnNavigationEnd`.
- `ngOnDestroy` and the subscription teardown (lines 81-85) are framework lifecycle.
- `ConfigService`, `MediaWatcherService` and the Angular router are foreign services. Their outputs are inputs here: an `AppConfig` object, a boolean dark preference (the media-query breakpoint taken as truthy or not), and an `ActivatedRoute` tree.
- Angular builds `pathFromRoot` itself. The model gives every route its path as data. `WellFormed` states the router's guarantee about that path, and only `LeafPath` relies on it.
- The query parameter is read from each route's own snapshot. The model does not state that Angular shares one query-parameter map across a whole navigation.
- Route `data.layout` values that are not strings are not modelled. The layout is an optional string.
- The DOM body is reduced to a set of class names. The order of a `DOMTokenList` is not modelled. Neither are the exceptions `classList.add` raises for an empty name or a name containing whitespace.
- Fields that TypeScript leaves `undefined` until the first callback (`layout`, `scheme`, `theme`) start as `""`.
- The delivery of values to subscribers through `asObservable` (alert.service.ts lines 16-25) is described by `Received` rather than by subscriber objects.
- The alert name passed to `show` and `dismiss` is a string, so `null` and `undefined` are not modelled as separate inputs. The guard `!name` is modelled as `name == ""`.
- Templates, styles and `EmptyLayoutComponent` are presentation only.
