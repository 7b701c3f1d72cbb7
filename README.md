# Adaptive-quality core of a 3D portfolio site, in Dafny

This project models the logic of a React portfolio site that adapts its 3D scene to the visitor's device. It also covers the site's interactive widgets. Each source file of that core gets one Dafny module, and properties of each are proved:

- **Tiers** (`src/hooks/usePerformanceTier.js`) covers four things:
  - the three performance tiers and the `TIER_SETTINGS` table;
  - the mapping from a GPU probe result to a tier;
  - the state the asynchronous probe leaves behind, including the `isMounted` guard;
  - `useShouldReduceQuality`.
- **PerformanceContext** (`src/context/PerformanceContext.jsx`) covers these parts of the provider:
  - viewport classification at 768/1024 px;
  - the 150 ms resize debounce, as a class holding a pending timer's due time;
  - the validated manual override;
  - the effective tier, where the override beats the mobile rule, which beats the GPU tier;
  - the effective settings, where a tablet at HIGH loses bloom and keeps 70 particles;
  - the broadcast value;
  - the defaults `usePerformance` returns outside a provider.
- **Particles** (`src/components/HeroModels/Particles.jsx`) covers four things:
  - the particle budget and the render gate;
  - particle creation and the flat xyz position buffer;
  - the frame-skipping counter;
  - the per-frame fall step that rewrites only the y slots in place.
- **PerformanceToaster** (`src/components/PerformanceToaster.jsx`) covers four things:
  - the highlighted quality button;
  - the panel's open and interacted flags;
  - the pulse ring;
  - the "Experiencing lag?" hint.
- **ProjectSection** (`src/sections/ProjectSection.jsx`) covers three things:
  - the seven inline projects and their pages of three;
  - the previous, next and numbered page handlers;
  - the page effect that reloads the shown projects and trims the card refs.
- **ResumeViewer** (`src/components/ResumeViewer.jsx`) covers three things:
  - the rewrite of a document's edit link into its preview link, as `url.replace(/\/edit.*$/, '/preview')` with JavaScript's regular-expression semantics;
  - the modal's render gate;
  - the re-entrancy guard of the download handler.
- **ChatBot** (`src/components/ChatBot/ChatBot.jsx`) covers four things:
  - the message list and its invariant: the greeting comes first, senders alternate, and a request is in flight exactly when the last message is the user's;
  - the send guard;
  - the single reply or error message each accepted send produces;
  - the open/minimise toggles and the quick suggestions.

Two helper modules support the rest:

- **Options** holds the `Option` type.
- **JsStrings** defines JavaScript's whitespace set, its line terminators and `String.prototype.trim`.

Outside effects become parameters:

- The GPU probe, the chat service and the PDF service are inputs. Each handler that starts a request returns it, and a separate method receives its outcome.
- `Date.now()` and the clock are `now` parameters.
- `window.innerWidth` is a `width` parameter.
- Each `Math.random()` draw is a `real` parameter.

Source states become classes whose methods update them in place:

- React state cells;
- the particle position buffer, an `array<real>`;
- the debounce timer.

Pure derivations, such as memos and render conditions, are functions.

## Model

| member | source | states |
|---|---|---|
| JsStrings.TrimStart | src/components/ChatBot/ChatBot.jsx:33 | the result is a suffix of the input, what was cut is whitespace, and the result does not start with whitespace |
| JsStrings.TrimEnd | src/components/ChatBot/ChatBot.jsx:33 | the result is a prefix of the input, what was cut is whitespace, and the result does not end with whitespace |
| JsStrings.TrimEmptyIffBlank | src/components/ChatBot/ChatBot.jsx:33 | `s.trim()` is empty exactly when every character of `s` is JavaScript whitespace |
| Tiers.Lookup | src/hooks/usePerformanceTier.js:19-89 | looking up any tier's name in the table succeeds, with a positive particle budget and an update cadence of at least 1 |
| Tiers.TableHasOneRecordPerTier | src/hooks/usePerformanceTier.js:10-14 | the table's keys are exactly the three tier strings, and distinct tiers have distinct records |
| Tiers.BudgetsFollowTierOrder | src/hooks/usePerformanceTier.js:19-89 | a higher tier never has a smaller particle budget (20/50/100) or a larger update cadence (4/2/1) |
| Tiers.TierOfScore | src/hooks/usePerformanceTier.js:157-159 | a score maps to LOW iff it is at most 1, to MEDIUM iff it is 2, and to HIGH iff it is 3 or more |
| Tiers.TierDistinguishingFlags | src/hooks/usePerformanceTier.js:19-89 | only LOW renders on demand and drops antialiasing, shadows and full materials; only HIGH enables bloom and area lights |
| Tiers.TierOfScoreMonotone | src/hooks/usePerformanceTier.js:157-159 | a higher GPU score never maps to a lower tier |
| Tiers.TierOfProbe | src/hooks/usePerformanceTier.js:133-160 | with no stored result the tier is MEDIUM, with a mobile result LOW, otherwise the score's tier |
| Tiers.MobileProbeIsLow | src/hooks/usePerformanceTier.js:140-142 | a mobile probe is LOW whatever its score; non-mobile probes are monotone in their score |
| Tiers.Settle | src/hooks/usePerformanceTier.js:99-130 | after unmount nothing changes; otherwise loading ends with a result stored, the probe's own on success and the FALLBACK record, which maps to MEDIUM, on failure |
| Tiers.UsePerformanceTier | src/hooks/usePerformanceTier.js:162-171 | the settings are the table entry of the returned tier, loading and the GPU info are passed through, and with no result the tier is MEDIUM |
| Tiers.ShouldReduceQuality | src/hooks/usePerformanceTier.js:178-181 | true exactly when the detected tier is LOW, and then the scene renders on demand |
| Tiers.DetectionLifecycle | src/hooks/usePerformanceTier.js:95-134 | the hook starts MEDIUM and loading, stops loading once the probe settles while mounted, stays MEDIUM on a failed probe, and ignores a probe that settles after unmount |
| PerformanceContext.Classify | src/context/PerformanceContext.jsx:27-34 | exactly one viewport flag is set: mobile iff width <= 768, tablet iff 768 < width <= 1024, desktop iff width > 1024 |
| PerformanceContext.ClassifyMonotone | src/context/PerformanceContext.jsx:27-34 | a wider window never gets a smaller viewport class |
| PerformanceContext.TierNamed | src/hooks/usePerformanceTier.js:10-14 | a string is recognised exactly when it is some tier's name, and it names the tier returned |
| PerformanceContext.TierNamedRoundTrip | src/context/PerformanceContext.jsx:53 | every tier's own string is accepted as that tier |
| PerformanceContext.NextOverride | src/context/PerformanceContext.jsx:52-56 | null clears the override, a tier string sets it to that tier, and any other value leaves it unchanged |
| PerformanceContext.EffectiveTier | src/context/PerformanceContext.jsx:59-66 | the override wins; without one a mobile viewport forces LOW; otherwise the detected tier is used |
| PerformanceContext.EffectiveSettings | src/context/PerformanceContext.jsx:69-82 | the settings equal the table entry except that a tablet at HIGH has bloom off and `floor(100 * 0.7) = 70` particles; no other field differs, the budget never grows, and bloom is never switched on |
| PerformanceContext.ProviderValue | src/context/PerformanceContext.jsx:84-106 | the broadcast tier and settings are the effective ones; exactly one tier flag is set and matches the tier; `hasOverride` iff an override is stored; simple materials iff LOW; effects iff not LOW |
| PerformanceContext.DefaultValue | src/context/PerformanceContext.jsx:125-142 | outside a provider the bundle is MEDIUM with MEDIUM's settings and the viewport classified from the current width |
| PerformanceContext.DefaultMatchesMediumProvider | src/context/PerformanceContext.jsx:119-146 | above 768 px the default bundle equals what a freshly mounted provider derives (no override, probe pending) except that the default reports loading as finished; the provider is loading and the default is not; at mobile widths the provider gives LOW where the default gives MEDIUM |
| PerformanceContext.ResolverExamples | src/context/PerformanceContext.jsx:59-82 | on a HIGH GPU: an override beats the mobile rule, a mobile width forces LOW, and a tablet width keeps HIGH with bloom off and 70 particles |
| PerformanceContext.PerformanceProvider.constructor | src/context/PerformanceContext.jsx:15-21 | the provider starts with no probe result and loading, no override, the desktop viewport, no timer and no listener |
| PerformanceContext.PerformanceProvider.Value | src/context/PerformanceContext.jsx:84-106 | the broadcast value carries the current viewport state and reports an override exactly when one is stored |
| PerformanceContext.PerformanceProvider.MountViewport | src/context/PerformanceContext.jsx:41-44 | at mount the viewport is classified once from the current width and the resize listener is attached |
| PerformanceContext.PerformanceProvider.Resize | src/context/PerformanceContext.jsx:36-39 | while listening, a resize replaces any pending timer with exactly one timer due 150 ms later; no other state changes |
| PerformanceContext.PerformanceProvider.Tick | src/context/PerformanceContext.jsx:27-38 | a due timer reclassifies the viewport from the width at firing time and clears itself; otherwise nothing changes |
| PerformanceContext.PerformanceProvider.SetPerformanceOverride | src/context/PerformanceContext.jsx:52-56 | the override becomes `NextOverride` of the old one; nothing else changes |
| PerformanceContext.PerformanceProvider.ProbeSettled | src/hooks/usePerformanceTier.js:112-121 | the detection state becomes `Settle` of the old one under the current mounted flag |
| PerformanceContext.PerformanceProvider.Unmount | src/context/PerformanceContext.jsx:45-48 | teardown removes the listener and clears the timer; later probe results are ignored |
| Particles.ActualCount | src/components/HeroModels/Particles.jsx:14-18 | outside LOW the count is `min(count, budget)`; at LOW it is the floor of 3/10 of that; for a non-negative minimum the result is never above the prop or the budget |
| Particles.DefaultCountsPerTier | src/components/HeroModels/Particles.jsx:5-18 | the default field gets 6 particles at LOW, 50 at MEDIUM, 70 at HIGH on a tablet and 100 at HIGH elsewhere, and each of these passes the render gate |
| Particles.LowTierCountBound | src/components/HeroModels/Particles.jsx:14-18 | whatever the prop, a LOW field never gets more than 6 particles |
| Particles.LowTierRendersFromSeventeen | src/components/HeroModels/Particles.jsx:63 | at LOW the render gate on `actualCount` (lines 14-18; below 5 nothing is drawn) passes exactly when the `count` prop is at least 17 |
| Particles.NewParticleBounds | src/components/HeroModels/Particles.jsx:22-31 | draws in [0, 1) give x and z in [-5, 5), y in [5, 15) and speed in [0.005, 0.006) |
| Particles.MakeParticles | src/components/HeroModels/Particles.jsx:20-33 | `actualCount` particles are created (none when it is not positive), the i-th built from the i-th draw |
| Particles.FillPositions | src/components/HeroModels/Particles.jsx:35-43 | a fresh buffer of three slots per particle holds each particle's x, y, z at `3i`, `3i+1`, `3i+2` |
| Particles.NextFrameCount | src/components/HeroModels/Particles.jsx:47 | the counter stays in `[0, updateFrequency)`, steps up by one and wraps to 0 after `updateFrequency - 1` |
| Particles.CountAfterFromZero | src/components/HeroModels/Particles.jsx:47-48 | from zero, the counter after k frames is `k mod updateFrequency` |
| Particles.OneUpdatePerPeriod | src/components/HeroModels/Particles.jsx:45-48 | of the first k frames exactly `floor(k / updateFrequency)` run the update body |
| Particles.FallY | src/components/HeroModels/Particles.jsx:54-56 | y drops by the particle's speed unless that takes it below -2, in which case it is re-seeded to `10r + 5` |
| Particles.FallYDropsOrReseeds | src/components/HeroModels/Particles.jsx:54-56 | with a positive speed a y either strictly drops or lands in [5, 15) |
| Particles.ParticleField.constructor | src/components/HeroModels/Particles.jsx:8 | a field starts with the frame counter at 0 and a buffer of three slots per particle |
| Particles.ParticleField.OnFrame | src/components/HeroModels/Particles.jsx:45-60 | the counter advances modulo the cadence; the buffer is touched only on a zero count with a live mesh, and then every y slot falls in place while every x and z slot stays |
| PerformanceToaster.ActiveTier | src/components/PerformanceToaster.jsx:23 | when the LOW flag agrees with the tier, the highlighted tier is the tier itself |
| PerformanceToaster.ActiveTierIsEffectiveTier | src/components/PerformanceToaster.jsx:23 | under any provider value the highlighted tier is exactly the effective tier |
| PerformanceToaster.ExactlyOneHighlighted | src/components/PerformanceToaster.jsx:65-82 | for every active tier exactly one of the three quality buttons is highlighted |
| PerformanceToaster.QualityButtonSetsOverride | src/components/PerformanceToaster.jsx:72 | clicking a quality button always sets the override to that button's tier |
| PerformanceToaster.PanelStep | src/components/PerformanceToaster.jsx:18-21 | toggling flips the panel and marks interaction; closing only closes; dismissing only marks interaction |
| PerformanceToaster.InteractionIsPermanent | src/components/PerformanceToaster.jsx:15-21 | no handler ever clears `hasInteracted` |
| PerformanceToaster.ShowPulse | src/components/PerformanceToaster.jsx:108 | the pulse ring shows exactly in the initial panel state, closed and not yet interacted with |
| PerformanceToaster.ShowHint | src/components/PerformanceToaster.jsx:116 | the hint bubble shows only while the pulse ring does |
| PerformanceToaster.HintGoneAfterInteraction | src/components/PerformanceToaster.jsx:108-120 | after any toggle or dismiss, neither the hint bubble nor the pulse ring shows again |
| PerformanceToaster.PerformanceControls.constructor | src/components/PerformanceToaster.jsx:15-16 | the panel starts closed and not yet interacted with |
| PerformanceToaster.PerformanceControls.TogglePanel | src/components/PerformanceToaster.jsx:18-21 | the panel flips and interaction is recorded, as `PanelStep` says |
| PerformanceToaster.PerformanceControls.Close | src/components/PerformanceToaster.jsx:38 | the panel closes and the interaction flag is kept |
| PerformanceToaster.PerformanceControls.Dismiss | src/components/PerformanceToaster.jsx:120 | interaction is recorded and the panel stays as it was |
| ProjectSection.TotalPages | src/sections/ProjectSection.jsx:79 | the page count is the fewest pages of three that hold all items |
| ProjectSection.JsSlice | src/sections/ProjectSection.jsx:88-91 | `slice` clamps both ends to the length, and the k-th element of the result is the (start+k)-th of the input |
| ProjectSection.PageItems | src/sections/ProjectSection.jsx:87-92 | a valid page holds between 1 and 3 items, those at `3 * page` onward; a page past the end is empty |
| ProjectSection.PagesFromIsSuffix | src/sections/ProjectSection.jsx:87-92 | the pages from `page` on, concatenated, are exactly the data from `3 * page` on |
| ProjectSection.PagesPartitionData | src/sections/ProjectSection.jsx:78-92 | concatenating all pages in order gives back the project list, so every project is on exactly one page |
| ProjectSection.InlineProjectsMakeThreePages | src/sections/ProjectSection.jsx:10-79 | the seven inline projects make three pages of 3, 3 and 1 |
| ProjectSection.PageStaysInRange | src/sections/ProjectSection.jsx:134-148 | from a valid page, any run of offered clicks keeps the page in range |
| ProjectSection.DisabledIffNoOp | src/sections/ProjectSection.jsx:258-286 | on a valid page the previous/next button is disabled exactly when its handler would do nothing; otherwise it moves by one |
| ProjectSection.SetRef | src/sections/ProjectSection.jsx:174-218 | a ref callback stores its element at its index, fills any gap with holes, and keeps every other slot |
| ProjectSection.ProjectPager.constructor | src/sections/ProjectSection.jsx:76-83 | the section starts on page 0 with no projects and no refs |
| ProjectSection.ProjectPager.HandlePrevPage | src/sections/ProjectSection.jsx:138-142 | the page steps back unless it is the first page; shown projects and refs are untouched |
| ProjectSection.ProjectPager.HandleNextPage | src/sections/ProjectSection.jsx:144-148 | the page steps forward unless it is the last page; shown projects and refs are untouched |
| ProjectSection.ProjectPager.HandlePageChange | src/sections/ProjectSection.jsx:134-136 | the page becomes the chosen one |
| ProjectSection.ProjectPager.PageEffect | src/sections/ProjectSection.jsx:85-96 | the shown projects become the current page's one to three items, and the refs are cut to that many |
| ProjectSection.ProjectPager.AttachRef | src/sections/ProjectSection.jsx:174-218 | the refs become `SetRef` of the old refs; page and projects are untouched |
| ResumeViewer.FirstMatch | src/components/ResumeViewer.jsx:8 | the result is the leftmost index where "/edit" starts and no line terminator follows, or none such exists |
| ResumeViewer.PreviewUrl | src/components/ResumeViewer.jsx:7-9 | without a match of `/\/edit.*$/` the link is unchanged; otherwise everything from the leftmost match on is replaced by "/preview" |
| ResumeViewer.PreviewUrlWithoutEdit | src/components/ResumeViewer.jsx:7-9 | a link without "/edit" passes through unchanged |
| ResumeViewer.PreviewUrlSingleLine | src/components/ResumeViewer.jsx:7-9 | on a single-line link everything from the first "/edit" on becomes "/preview" |
| ResumeViewer.NoMatchAfterRewrite | src/components/ResumeViewer.jsx:7-9 | a rewritten link contains no further match of the pattern |
| ResumeViewer.PreviewUrlIdempotent | src/components/ResumeViewer.jsx:7-9 | rewriting an already rewritten link changes nothing |
| ResumeViewer.Render | src/components/ResumeViewer.jsx:72-104 | nothing renders while closed; when open, the iframe shows the preview link and the download button is disabled and spinning exactly while downloading |
| ResumeViewer.ResumeDownloader.constructor | src/components/ResumeViewer.jsx:22 | the viewer starts with no download running |
| ResumeViewer.ResumeDownloader.HandleDownload | src/components/ResumeViewer.jsx:47-53 | a click during a download does nothing; otherwise the flag rises and the PDF is requested for the same preview link the iframe shows |
| ResumeViewer.ResumeDownloader.DownloadSettled | src/components/ResumeViewer.jsx:67-69 | after success or failure the flag drops |
| ChatBot.BotMessage | src/components/ChatBot/ChatBot.jsx:52-73 | the reply is a bot message with id `now + 1`; it is marked as an error exactly on failure, and on success it carries the reply, source and provider |
| ChatBot.SendBlockedIsTrimGuard | src/components/ChatBot/ChatBot.jsx:33 | the guard `!inputMessage.trim() \|\| isLoading` (also the send button's `disabled` at line 191) holds exactly when the input is all JavaScript whitespace or a request is in flight |
| ChatBot.AppendKeepsShape | src/components/ChatBot/ChatBot.jsx:42-75 | appending a message whose sender fits its position keeps the greeting first and user and bot messages alternating, and flips the parity of the length |
| ChatBot.ChatWidget.constructor | src/components/ChatBot/ChatBot.jsx:8-20 | the widget starts closed with only the greeting, an empty input and nothing loading |
| ChatBot.ChatWidget.HandleSendMessage | src/components/ChatBot/ChatBot.jsx:32-48 | a blocked send changes nothing; otherwise the untrimmed input is appended as a user message, the input clears, loading and typing start, that text is what gets sent, and the suggestions are gone; the message invariant is kept |
| ChatBot.ChatWidget.ReceiveOutcome | src/components/ChatBot/ChatBot.jsx:51-78 | an in-flight request ends with exactly one bot message appended and both flags cleared, keeping the invariant; the suggestions do not show |
| ChatBot.ChatWidget.HandleKeyPress | src/components/ChatBot/ChatBot.jsx:81-86 | Enter without Shift behaves exactly as `HandleSendMessage`: a blocked send or any other key changes nothing; an accepted send appends the user message, clears the input and starts loading and typing; the window flags never change |
| ChatBot.ChatWidget.ToggleChat | src/components/ChatBot/ChatBot.jsx:88-93 | the window flips; opening it also un-minimises it |
| ChatBot.ChatWidget.ToggleMinimize | src/components/ChatBot/ChatBot.jsx:95-97 | only the minimised flag flips |
| ChatBot.ChatWidget.SetInput | src/components/ChatBot/ChatBot.jsx:107-110 | the input takes the typed or suggested text; nothing else changes |
| ChatBot.SuggestionsAreSendable | src/components/ChatBot/ChatBot.jsx:100-110 | each of the four quick suggestions, placed in the input, passes the send guard while idle |
| ChatBot.SuggestionsNeverReturn | src/components/ChatBot/ChatBot.jsx:151 | once a second message exists, the suggestions never show again as the list only grows |
| ChatBot.SuggestionsOnlyWithGreeting | src/components/ChatBot/ChatBot.jsx:151 | while the suggestions show, the greeting is the only message and no request is in flight |

## Left out

- The internals of the GPU benchmark library: its result is an input (`ProbeOutcome`); only the fields the hook reads are kept (`tier`, `isMobile`, `type`).
- The battery-saver check in the tier memo: its callback's return value is discarded, so it never affects the tier.
- The 3D-assets switch and the quality selector's dimmed state: the toaster reads `is3DEnabled` and `setIs3DEnabled` from the context, but the provider never supplies them. Both are `undefined` at run time, and the model does not represent them.
- PerformanceToaster.QualityButtonSetsOverride: assumes the button's click reaches its handler. Because `is3DEnabled` is `undefined`, the selector's wrapper gets a style class that ignores mouse clicks; keyboard activation still reaches the buttons.
- `setPerformanceOverride` as a member of the context value: a function cannot be stored in the modelled record; it is modelled as the provider's method instead.
- Floating point: table decimals are exact reals and never computed on. The 0.7 and 0.3 factors are the exact ratios 7/10 and 3/10. These agree with double arithmetic for the values that reach them (100 at HIGH; 20 or less at LOW).
- Particles.FillPositions: stores exact reals where the source's `Float32Array` rounds to single precision. For a negative `count` prop, `actualCount` is negative and `new Float32Array(actualCount * 3)` throws a RangeError before the render gate, so the component fails; the model gives an empty field instead (as does Particles.MakeParticles).
- Particles.ParticleField.OnFrame: each new y is stored exactly, whereas the source's store into the `Float32Array` rounds it to single precision.
- The scroll lock of the resume modal, the Blob/object-URL download and the PDF service: browser I/O; the service is an input and its outcome only clears the flag.
- The chat service call, its random 1-2 s reply delay and the message timestamps: the call is the returned request, the delay is the gap before `ReceiveOutcome`, and timestamps are not state.
- ChatBot.ChatWidget.HandleSendMessage: the guard reads the current state, while the source reads the state of its last render. Two sends within one render are therefore not modelled.
- Focus and scrolling (`inputRef.focus`, `scrollIntoView`), GSAP animations, the card descriptions, tags and colours, and every scene component: presentation only.
- A viewport-entry mount controller with a grace timer, and a 2D fallback for low-end devices: no code in these source files implements them, so they are not modelled.
