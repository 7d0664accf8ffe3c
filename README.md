# Bus tracker front end: a Dafny model

This project models the logic of a bus-tracking web front end (a React/TypeScript app). The main piece is the **fare calculator**. It turns a bus category (`local`, `district`, `state`), an origin, a destination and a bus class into a display fare and a distance. It works in three steps:

- the **location resolver** maps a place name, case-insensitively, to one of nine registered coordinates, and falls back to Hyderabad;
- the **distance** is the great-circle arc, rounded to hundredths of a km;
- the **fare policy** applies banded rules for five local/district classes, per-route flat prices for the Garuda and Vajra state classes (forward key first, then the reversed key, then a per-km formula), and a per-km range for any other state class.

Around it, the model covers the page's view-navigation state machine, the route form with its location suggestions and submit guard, the support-ticket form, the translation lookup, and the language toggle.

Modelling choices:

- Distances are integer hundredths of a km. Coordinates are integer ten-thousandths of a degree, which is exact for every registered place.
- The haversine arc is a parameter `arc: (Coord, Coord) -> real`. It is assumed to be non-negative, symmetric and zero between a point and itself (`IsGreatCircle`). The model then rounds the exact arc, times 100, half-up to a whole number of hundredths. The source rounds the floating-point product `distance * 100` instead, which can differ near a half (see "## Left out").
- `Math.round(x)` on the non-negative values used here is half-up rounding. `RoundDiv(p, q)` computes it on exact rationals.
- A fare is `Single(n)`, `Range(lo, hi)` or `AtLeast(n)`. It is displayed as `₹n`, `₹lo - ₹hi` or `₹n+`. `ParseFare` is a specification helper with no counterpart in the source: it reads a display string back, so that `ParseRender` can state that the display form loses nothing.
- The flat price tables hold the rupee amounts of their `₹n` strings. Each key is written as `Key(a, b)`, the hyphen-joined pair. `Key("hyderabad", "karimnagar")` is the string `"hyderabad-karimnagar"`.
- Stateful components are classes whose fields are the component's `useState` fields. The page navigation is also given as a pure transition function `Step`, and each handler method is proved against it. `Enabled` records which handler the rendered page offers in which state. Over every sequence of offered handler calls, the model proves two things: the user is signed in exactly when the view is not the landing page, and the bus list and map always get a non-empty origin and destination.

## Model

| member | source | states |
|---|---|---|
| `Text.Lower` | src/utils/fareCalculator.ts:31-32 | lower-casing keeps the length; each of 'A'..'Z' becomes its lower-case letter (32 code points on) and every other character is kept |
| `Text.IncludesIffOccurs` | src/components/RouteSelection.tsx:51 | `includes` holds exactly when the part occurs at some offset (the empty part occurs everywhere) |
| `Text.Includes` | src/components/RouteSelection.tsx:51 | no contract of its own; `Text.IncludesIffOccurs` states what it means |
| `Text.NatToString` | src/utils/fareCalculator.ts:45 | the `${n}` rendering is non-empty, all digits, and has no leading zero except for 0 |
| `Text.DigitsValueOfNatToString` | src/utils/fareCalculator.ts:45 | reading the digits back gives the number |
| `FareCalculator.Resolve` | src/utils/fareCalculator.ts:17-32 | always returns one of the nine registered coordinates: the lower-cased name's own if registered, otherwise Hyderabad's |
| `FareCalculator.ResolveCaseInsensitive` | src/utils/fareCalculator.ts:31-32 | names that lower-case alike resolve alike |
| `FareCalculator.Hundredths` | src/utils/fareCalculator.ts:13 | the result is the whole number of hundredths nearest to the km value, halves rounded up |
| `FareCalculator.Distance` | src/utils/fareCalculator.ts:3-14 | the distance is the arc between the resolved coordinates to the nearest hundredth, and it is 0 when both names resolve to the same coordinate |
| `FareCalculator.DistanceSymmetric` | src/utils/fareCalculator.ts:3-14 | the distance does not depend on direction |
| `FareCalculator.UnknownPlacesAreZeroApart` | src/utils/fareCalculator.ts:31-33 | two unregistered names are 0 km apart |
| `FareCalculator.RoundDiv` | src/utils/fareCalculator.ts:45 | `Math.round(p/q)` is the integer r with r - 1/2 <= p/q < r + 1/2 |
| `FareCalculator.RoundDivUnique` | src/utils/fareCalculator.ts:45 | no other integer is within that half-unit window |
| `FareCalculator.RoundDivShift` | src/utils/fareCalculator.ts:67 | adding k whole units before rounding adds exactly k after |
| `FareCalculator.Linear` | src/utils/fareCalculator.ts:45 | `Math.round(base + rate * d)` is the nearest integer to the exact amount |
| `FareCalculator.LinearMonotone` | src/utils/fareCalculator.ts:45 | the per-km amounts never fall as the distance grows |
| `FareCalculator.Render` | src/utils/fareCalculator.ts:35-117 | every display fare has at least two characters and starts with "₹" |
| `FareCalculator.ParseRender` | src/utils/fareCalculator.ts:35-117 | every display fare reads back as the fare it displays |
| `FareCalculator.RenderInjective` | src/utils/fareCalculator.ts:35-117 | different fares never display alike |
| `FareCalculator.LookupRoute` | src/utils/fareCalculator.ts:86-103 | the forward key wins, the reversed key is used only when the forward one is absent, and there is no price exactly when both are absent |
| `FareCalculator.RouteKey` | src/utils/fareCalculator.ts:86-87 | no contract of its own; `FareCalculator.SplitKey` states that the key splits back into the two lower-cased names, and `FareCalculator.TableHitNeedsRegisteredPlaces` what a table hit implies |
| `FareCalculator.LocalFare` | src/utils/fareCalculator.ts:37-83 | no contract of its own; its lemmas pin every band: `FareCalculator.CityOrdinaryBands`, `MetroExpressBands`, `MetroDeluxeSingle`, `DeluxeRangeWidth` and `SuperLuxuryBands` state each flat amount and each formula amount (round(10 + 2.5 d), round(10 + 3 d), round(15 + 2 d), round(15 + 2 d) to round(20 + 2 d), round(70 + 2 d)+); `UnknownLocalClass` states the default; `LocalFareMonotone` that the lowest fare never falls with distance |
| `FareCalculator.StateFare` | src/utils/fareCalculator.ts:84-117 | no contract of its own; specified by `FareCalculator.GarudaPricing` (table, else round(15 d)), `VajraPricing` (table, else round(12 d)), `OtherStateClassRange` (round(10 d) to round(20 d)) and the concrete route lemmas |
| `FareCalculator.FareFor` | src/utils/fareCalculator.ts:37-117 | no contract of its own; `FareCalculator.LocalAndDistrictAgree` states that local and district share one rule set, and `FareCalculator.CalculateFare` that the displayed fare is this one |
| `FareCalculator.CalculateFare` | src/utils/fareCalculator.ts:29-120 | never fails; the fare string is exactly the display form of the policy's fare for the returned distance (so it starts with "₹" and reads back as that fare); the distance is the resolved arc rounded to hundredths |
| `FareCalculator.LocalAndDistrictAgree` | src/utils/fareCalculator.ts:37-84 | local and district buses are priced by the same class rules |
| `FareCalculator.CityOrdinaryBands` | src/utils/fareCalculator.ts:39-47 | ₹10 up to 4 km, ₹15 up to 6 km, then the single fare round(10 + 2.5 d), which is at least ₹25; 3 km costs ₹10 and 10 km costs ₹35 |
| `FareCalculator.MetroExpressBands` | src/utils/fareCalculator.ts:49-57 | ₹10 up to 2 km, ₹20 up to 6 km, then the single fare round(10 + 3 d), which is at least ₹28 |
| `FareCalculator.MetroDeluxeSingle` | src/utils/fareCalculator.ts:59-61 | at every distance the single fare round(15 + 2 d), at least ₹15; 10 km costs ₹35 |
| `FareCalculator.DeluxeRangeWidth` | src/utils/fareCalculator.ts:63-69 | always a range whose upper bound is exactly ₹5 above the lower; "₹15 - ₹20" up to 6 km, and beyond that the lower bound is round(15 + 2 d) |
| `FareCalculator.SuperLuxuryBands` | src/utils/fareCalculator.ts:71-79 | "₹40 - ₹70" up to 15 km, "₹70 - ₹100" up to 30 km, then the open-ended fare round(70 + 2 d)+, which is at least ₹130 (31 km shows "₹132+") |
| `FareCalculator.UnknownLocalClass` | src/utils/fareCalculator.ts:81-82 | any other local/district class shows "₹10 - ₹20" whatever the distance |
| `FareCalculator.LocalFareMonotone` | src/utils/fareCalculator.ts:37-83 | for every local/district class the lowest fare never falls as the distance grows |
| `FareCalculator.OtherStateClassRange` | src/utils/fareCalculator.ts:114-116 | any other state class gets the range round(10 d) to round(20 d); the low bound never exceeds the high bound, which is within ₹1 of twice the low bound |
| `FareCalculator.GarudaPricing` | src/utils/fareCalculator.ts:102-103 | Garuda uses the forward price, else the reversed price, else round(15 d) |
| `FareCalculator.VajraPricing` | src/utils/fareCalculator.ts:104-113 | Vajra uses the forward price, else the reversed price, else round(12 d) |
| `FareCalculator.GarudaBangaloreRoutes` | src/utils/fareCalculator.ts:96-97 | by Garuda, Hyderabad to Bangalore is ₹631 but Bangalore to Hyderabad is ₹674 |
| `FareCalculator.VajraBangaloreRoutes` | src/utils/fareCalculator.ts:110-113 | by Vajra both directions cost ₹674, the way back through the reversed key |
| `FareCalculator.GarudaKarimnagarRoutes` | src/utils/fareCalculator.ts:90 | by Garuda, Hyderabad and Karimnagar are ₹231 apart in either direction |
| `FareCalculator.SplitKey` | src/utils/fareCalculator.ts:86-87 | a route key built from hyphen-free names splits back into the same two names |
| `FareCalculator.TableHitNeedsRegisteredPlaces` | src/utils/fareCalculator.ts:86-113 | a flat table price is found only when both names are registered places |
| `FareCalculator.UnknownPlacesByGaruda` | src/utils/fareCalculator.ts:29-103 | two unregistered names by Garuda give distance 0 and fare "₹0", with no error |
| `FareCalculator.UnknownPlacesByVajra` | src/utils/fareCalculator.ts:29-113 | two unregistered names by Vajra give distance 0 and fare "₹0", with no error |
| `IndexPage.Step` | src/pages/Index.tsx:22-68 | no contract of its own: the page's transition function, which each `Index` handler method is proved against; `IndexPage.StepPreservesConsistent` states the invariant it keeps over offered handlers |
| `IndexPage.Index.constructor` | src/pages/Index.tsx:15-20 | landing view, no modal, signed out, bus type local, empty route, empty bus id |
| `IndexPage.Index.HandleAuthClick` | src/pages/Index.tsx:22-24 | sets only the modal type |
| `IndexPage.Index.CloseAuthModal` | src/pages/Index.tsx:123 | clears only the modal type |
| `IndexPage.Index.HandleAuthSuccess` | src/pages/Index.tsx:26-30 | signs in, closes the modal, shows the dashboard |
| `IndexPage.Index.HandleLogout` | src/pages/Index.tsx:32-35 | signs out and shows the landing view |
| `IndexPage.Index.HandleLogoClick` | src/pages/Index.tsx:37-41 | shows the dashboard when signed in, otherwise changes nothing |
| `IndexPage.Index.HandleBusTypeSelect` | src/pages/Index.tsx:43-46 | records the bus type and shows route selection |
| `IndexPage.Index.HandleRouteNext` | src/pages/Index.tsx:48-51 | records the route and shows the bus options |
| `IndexPage.Index.HandleBusSelect` | src/pages/Index.tsx:53-56 | records the bus id and shows the map |
| `IndexPage.Index.HandleBackToDashboard` | src/pages/Index.tsx:58-60 | shows the dashboard, nothing else changes |
| `IndexPage.Index.HandleBackToRouteSelection` | src/pages/Index.tsx:62-64 | shows route selection, nothing else changes |
| `IndexPage.Index.HandleBackToBusOptions` | src/pages/Index.tsx:66-68 | shows the bus options, nothing else changes |
| `IndexPage.CurrentScreen` | src/pages/Index.tsx:70-105 | no contract of its own: the screen `renderCurrentView` shows and the props it passes; `IndexPage.HeaderAndModalVisibility` relates it to the header |
| `IndexPage.ShowsHeader` | src/pages/Index.tsx:109 | no contract of its own; see `IndexPage.HeaderAndModalVisibility` |
| `IndexPage.ShowsModal` | src/pages/Index.tsx:120 | no contract of its own; see `IndexPage.HeaderAndModalVisibility` |
| `IndexPage.Enabled` | src/pages/Index.tsx:70-127 | no contract of its own: which handler the header, the current screen and the modal offer in each state; `IndexPage.StepPreservesConsistent` and `IndexPage.RunPreservesConsistent` are stated over it |
| `IndexPage.AuthSuccessFromAnywhere` | src/pages/Index.tsx:26-30 | from any state: signed in, no modal, dashboard screen |
| `IndexPage.LogoutKeepsSelections` | src/pages/Index.tsx:32-35 | signs out to landing and keeps bus type, route, bus id and modal field |
| `IndexPage.LogoClickGuard` | src/pages/Index.tsx:37-41 | a no-op when signed out; only the view changes when signed in |
| `IndexPage.SelectionsRecorded` | src/pages/Index.tsx:43-56 | each selection records exactly the given value and moves to the matching screen |
| `IndexPage.BackHandlersOnlyMoveView` | src/pages/Index.tsx:58-68 | each back handler changes only the view |
| `IndexPage.ModalHandlers` | src/pages/Index.tsx:22-24 | opening sets only the modal type and shows the modal; closing only clears it |
| `IndexPage.HeaderAndModalVisibility` | src/pages/Index.tsx:107-127 | the header is hidden exactly on the map screen; the modal is shown exactly when a modal type is set |
| `IndexPage.StepPreservesConsistent` | src/pages/Index.tsx:70-127 | every handler the page offers keeps "signed in iff off landing" and the non-empty route on the bus screens |
| `IndexPage.RunPreservesConsistent` | src/pages/Index.tsx:70-127 | any sequence of offered handler calls keeps that invariant |
| `IndexPage.ReachableStatesConsistent` | src/pages/Index.tsx:14-128 | from a fresh page the landing view is shown exactly when signed out, and the bus options screen never gets an empty origin or destination |
| `RouteSelection.Flatten` | src/components/RouteSelection.tsx:45 | a name is in the flattened list exactly when some area lists it, and the first area's names come first, in their own order |
| `RouteSelection.AllLocations` | src/components/RouteSelection.tsx:45 | no contract of its own; `RouteSelection.Flatten` states that it lists exactly the names some area lists, and `RouteSelection.AllLocationsShape` its length and ends |
| `RouteSelection.AllLocationsShape` | src/components/RouteSelection.tsx:22-45 | the candidate list has forty entries, starting with "Abids" and ending with "Jagadgirigutta" |
| `RouteSelection.Matches` | src/components/RouteSelection.tsx:50-51 | no contract of its own; `RouteSelection.Filter` and `Text.IncludesIffOccurs` state what it admits |
| `RouteSelection.Filter` | src/components/RouteSelection.tsx:50-52 | the result holds exactly the locations whose lower-cased name includes the lower-cased text |
| `RouteSelection.FilterIsSubsequence` | src/components/RouteSelection.tsx:50-52 | the filter keeps the list order |
| `RouteSelection.Suggestions` | src/components/RouteSelection.tsx:49-55 | empty input gives no suggestions; otherwise exactly the matching locations |
| `RouteSelection.SuggestionsInListOrder` | src/components/RouteSelection.tsx:22-50 | suggestions are a subsequence of the forty-name list |
| `RouteSelection.BusTypeTitle` | src/components/RouteSelection.tsx:76-83 | local, district and state map to their three titles, each title to its own category |
| `RouteSelection.RouteForm.constructor` | src/components/RouteSelection.tsx:16-19 | both fields and both suggestion lists start empty |
| `RouteSelection.RouteForm.HandleFromChange` | src/components/RouteSelection.tsx:47-56 | sets the origin to the typed text and its suggestions; the destination side is untouched |
| `RouteSelection.RouteForm.HandleToChange` | src/components/RouteSelection.tsx:58-67 | sets the destination to the typed text and its suggestions; the origin side is untouched |
| `RouteSelection.RouteForm.PickFromSuggestion` | src/components/RouteSelection.tsx:127-130 | sets the origin to the suggestion and clears only the origin suggestions |
| `RouteSelection.RouteForm.PickToSuggestion` | src/components/RouteSelection.tsx:159-162 | sets the destination to the suggestion and clears only the destination suggestions |
| `RouteSelection.RouteForm.HandleSubmit` | src/components/RouteSelection.tsx:69-74 | hands (from, to) on exactly when both are non-empty |
| `HelpCenter.PhoneIsOptional` | src/components/HelpCenter.tsx:23 | the phone number never decides acceptance |
| `HelpCenter.HelpCenterPage.constructor` | src/components/HelpCenter.tsx:15-20 | all four fields start empty |
| `HelpCenter.HelpCenterPage.EditEmail` | src/components/HelpCenter.tsx:110 | changes only the email |
| `HelpCenter.HelpCenterPage.EditPhone` | src/components/HelpCenter.tsx:122 | changes only the phone |
| `HelpCenter.HelpCenterPage.EditSubject` | src/components/HelpCenter.tsx:132 | changes only the subject |
| `HelpCenter.HelpCenterPage.EditMessage` | src/components/HelpCenter.tsx:143 | changes only the message |
| `HelpCenter.HelpCenterPage.HandleSubmitTicket` | src/components/HelpCenter.tsx:22-32 | accepted exactly when subject, message and email are non-empty; then all four fields are cleared, otherwise the form is unchanged |
| `LanguageContext.TranslationsNonEmpty` | src/contexts/LanguageContext.tsx:13-60 | every table row has non-empty English and Telugu text |
| `LanguageContext.Translate` | src/contexts/LanguageContext.tsx:73-75 | a key in the table gives its text in the language; any other key gives itself |
| `LanguageContext.Text` | src/contexts/LanguageContext.tsx:74 | no contract of its own: the `[language]` column of a row; `LanguageContext.TranslationsNonEmpty` states both columns are non-empty |
| `LanguageContext.TranslateNonEmpty` | src/contexts/LanguageContext.tsx:74 | a non-empty key never translates to the empty string |
| `LanguageContext.OnlyTableKeysDependOnLanguage` | src/contexts/LanguageContext.tsx:74 | a key whose text differs between the languages is in the table |
| `LanguageContext.LanguageProvider.constructor` | src/contexts/LanguageContext.tsx:71 | the language starts as English |
| `LanguageContext.LanguageProvider.SetLanguage` | src/contexts/LanguageContext.tsx:71 | sets the language |
| `LanguageContext.LanguageProvider.T` | src/contexts/LanguageContext.tsx:73-75 | `t` translates in the current language with the key as fallback |
| `LanguageSwitcher.Toggle` | src/components/LanguageSwitcher.tsx:10 | the toggle always switches to the other language |
| `LanguageSwitcher.ToggleTwice` | src/components/LanguageSwitcher.tsx:9-11 | toggling twice restores the language |
| `LanguageSwitcher.Label` | src/components/LanguageSwitcher.tsx:21 | the button names the language the toggle would switch to |
| `LanguageSwitcher.ToggleLanguage` | src/components/LanguageSwitcher.tsx:9-11 | English becomes Telugu and Telugu becomes English |

## Left out

- Haversine trigonometry (src/utils/fareCalculator.ts:4-12): `sin`, `cos`, `atan2` and `Math.PI` in floating point. The arc is a parameter that is assumed non-negative, symmetric and zero on identical points. The arc between registered places (for example about 135.43 km from Hyderabad to Karimnagar by the formula as written) is therefore not derived.
- Floating-point ties: `distance * 2.5` and the other products are computed on exact rationals. Where the binary value of such a product falls just below or above a `.5`, JavaScript can round the other way.
- `FareCalculator.Hundredths`: rounds the exact km value times 100, not the floating-point product `distance * 100` of src/utils/fareCalculator.ts:13. For the double nearest 0.015 km, JavaScript evaluates `0.015 * 100` to exactly 1.5 and returns 0.02 km, while the model rounds the exact value of that double, just below 0.015, to 1 hundredth. Floating-point multiplication is not modelled.
- Object-prototype keys (`constructor`, `toString`, ...) in the coordinate and price tables: the model's tables hold only their listed keys.
- Unicode case mapping: `toLowerCase` is modelled on ASCII letters only.
- `FareCalculator.LookupRoute`: the `||` fallback also skips an empty price string, but every table price is a non-empty `₹n`, so the model stores amounts and never takes that path.
- `RouteSelection.BusTypeTitle`: the `'Bus'` default cannot be reached with a well-typed category and is not modelled; likewise the default branch of the screen switch in src/pages/Index.tsx:102-103.
- The emoji of each location area and all JSX rendering, styling and popular-route text.
- `alert` and `console.log` in the ticket form: `HandleSubmitTicket` returns which alert is shown instead.
- The error `useLanguage` throws outside a provider (React context plumbing).
- `handleLogoClick` is modelled, but the header does not take it as a prop, so `Enabled` never offers it.
- Profile.tsx (remote profile reads and writes, file upload), BusMap.tsx (timer and random jitter), AuthModal.tsx (simulated sign-in), and LandingPage.tsx, Dashboard.tsx, Header.tsx and BusOptions.tsx (presentation only) are not part of this model.
