# A verified model of the portfolio site's behaviour

The site is a Next.js portfolio with a three.js background scene. Most of it is markup
and content tables. This project models the parts that compute or keep state, and
proves properties of them:

- the numeric helpers of the utility library: `lerp`, `clamp`, `mapRange`, `degToRad`
  and `radToDeg` (module `Numeric`);
- four animated scene objects:
  - the instanced particle field (`FloatingParticles`);
  - the stylised ocean (`StylizedOcean`);
  - the floating image (`FloatingImage`);
  - the pinned card stack (`CardStack`);
- the theme provider (`ThemeProvider`);
- the quote rotator and the easter egg (`OnePieceQuotes`);
- the contact form (`Contact`);
- the navigation bar (`Navigation`);
- the two project sections (`EnhancedProjects`, `Projects`), which share one status
  filter (`StatusFilter`).

State the source mutates in place is held in classes:
- the particle records and the instance matrices are arrays;
- the ocean's vertex buffer is an array;
- the mesh transforms, the provider, the form and the navigation bar are objects with
  fields.

Their per-frame or per-event methods are proved against specification functions:
`Advance` and `Pose` for the particles, `Displaced` for the ocean, `EaseScale` for the
image, and `Clicked`, `Hidden` and `Settled` for the easter egg.

Numbers are exact reals. `Math.sin`, `Math.cos`, `Math.sqrt` and `Math.atan2` are passed
in as a `Trig.MathLib` value whose `Valid()` predicate states the bounds:
- sine and cosine lie in [-1, 1];
- square roots are non-negative.

Results of `Math.random()` are parameters in [0, 1). A mesh ref that is not yet attached
is a `null` object or a `mounted` flag. Browser inputs (scroll offset, element
rectangles, stored items, the colour-scheme query) are plain parameters.

The source files store some non-ASCII text as mis-decoded bytes. The model uses the
characters those bytes were meant to encode; "## Left out" lists the two places.

## Model

| member | source | states |
|---|---|---|
| `Numeric.Lerp` | src/lib/utils.ts:76-78 | factor 0 gives `start`, factor 1 gives `end`; for a factor in [0, 1] the result lies between the two ends, in either order |
| `Numeric.Clamp` | src/lib/utils.ts:88-90 | with `min <= max` the result is in [min, max]; a value already in range is returned unchanged, one below gives `min`, one above gives `max`; with `min > max` the result is `max` |
| `Numeric.ClampIdempotent` | src/lib/utils.ts:88-90 | clamping a clamped value changes nothing, whether or not the bounds are ordered |
| `Numeric.MapRange` | src/lib/utils.ts:102-110 | `inMin` maps to `outMin` and `inMax` to `outMax` (requires `inMin != inMax`, where the source divides by zero) |
| `Numeric.MapRangeIsLerp` | src/lib/utils.ts:102-110 | range mapping equals `Lerp(outMin, outMax, (value - inMin) / (inMax - inMin))` |
| `Numeric.MapRangeRoundTrip` | src/lib/utils.ts:102-110 | mapping back from the output range to the input range returns the original value when both ranges are proper |
| `Numeric.DegToRad` | src/lib/utils.ts:184-186 | `r * 180 == degrees * PI`; 180 degrees is PI |
| `Numeric.RadToDeg` | src/lib/utils.ts:194-196 | `r * PI == radians * 180`; PI is 180 degrees |
| `Numeric.DegreesRoundTrip` | src/lib/utils.ts:184-196 | `radToDeg(degToRad(d)) == d` |
| `Numeric.RadiansRoundTrip` | src/lib/utils.ts:184-196 | `degToRad(radToDeg(r)) == r` |
| `FloatingParticles.Spawn` | src/components/3d/FloatingParticles.tsx:14-20 | a record built from six draws in [0, 1) has t in [0,100), factor in [20,120), speed in [0.01,0.015), x/y/zFactor in [-50,50), and mx = my = 0 |
| `FloatingParticles.Advance` | src/components/3d/FloatingParticles.tsx:39 | only `t` changes, and it strictly grows when speed is positive |
| `FloatingParticles.RunPhase` | src/components/3d/FloatingParticles.tsx:34-39 | after k frames, `t` has grown by exactly `k * speed / 2` and every other field is as constructed |
| `FloatingParticles.RunMonotonic` | src/components/3d/FloatingParticles.tsx:39 | with positive speed, `t` is strictly larger at every later frame |
| `FloatingParticles.FieldInvariant` | src/components/3d/FloatingParticles.tsx:20-39 | for a constructed record, mx and my stay 0 and speed and factor never change at any frame, and t never falls below its initial value |
| `FloatingParticles.BaseNearOrigin` | src/components/3d/FloatingParticles.tsx:46-48 | with mx = my = 0, each unperturbed coordinate lies within `1 + factor/10` of its x/y/zFactor |
| `FloatingParticles.RecordsStayNearOrigin` | src/components/3d/FloatingParticles.tsx:14-48 | every constructed record, after any number of frames, has unperturbed coordinates within 13 of its origin offsets |
| `FloatingParticles.Distance` | src/components/3d/FloatingParticles.tsx:51-53 | the distance to the pointer (with the pointer's y negated) is non-negative |
| `FloatingParticles.Force` | src/components/3d/FloatingParticles.tsx:57 | inside the radius, `force = (4 - dist) / 4` lies in (0, 1] |
| `FloatingParticles.Push` | src/components/3d/FloatingParticles.tsx:59-60 | a direction component in [-1, 1] times `force * 2` moves a coordinate by at most 2 |
| `FloatingParticles.Repel` | src/components/3d/FloatingParticles.tsx:51-61 | at distance >= 4 the point is unchanged; in every case each of x and y moves by at most 2 |
| `FloatingParticles.RepelsOnlyInside` | src/components/3d/FloatingParticles.tsx:53-55 | a point that moved has squared distance below 16 to the repulsion centre (when sqrt is exact there) |
| `FloatingParticles.Pose` | src/components/3d/FloatingParticles.tsx:42-65 | z is the unperturbed z; x and y are unperturbed outside the radius and within 2 of it inside; all scale axes equal cos t, which lies in [-1, 1]; all rotation axes are 5 times the scale |
| `FloatingParticles.InstancedMesh.constructor` | src/components/3d/FloatingParticles.tsx:74 | the mesh has exactly `count` instance slots and no pending upload |
| `FloatingParticles.ParticleField.constructor` | src/components/3d/FloatingParticles.tsx:11-23 | exactly 1000 records, record i built from draw i, each in the construction ranges |
| `FloatingParticles.ParticleField.Frame` | src/components/3d/FloatingParticles.tsx:27-71 | with no mesh nothing changes; otherwise every record advances once, slot i receives the pose of record i, the upload flag is set, and the field invariant (1000 records, each the constructed record after the frames so far) is kept |
| `FloatingParticles.UpdateInstances` | src/components/3d/FloatingParticles.tsx:34-69 | the loop advances record i and writes its pose into slot i, for every i |
| `StylizedOcean.Wave` | src/components/3d/StylizedOcean.tsx:36-38 | the sum of the three waves never exceeds 0.9 = 0.5 + 0.2 + 0.2 in size |
| `StylizedOcean.Displaced` | src/components/3d/StylizedOcean.tsx:25-41 | the target buffer keeps every x and y component of the original positions and puts every z within 0.9 of its original |
| `StylizedOcean.Ocean.constructor` | src/components/3d/StylizedOcean.tsx:11-16 | the snapshot is a copy of the geometry's 51 x 51 vertex buffer; the buffer starts in the invariant |
| `StylizedOcean.Ocean.Frame` | src/components/3d/StylizedOcean.tsx:18-47 | with no mesh nothing changes; otherwise the buffer becomes `Displaced(original, time)`, which depends on the snapshot and the clock alone, and is flagged for upload; x/y stay original and z stays within 0.9 |
| `StylizedOcean.WriteHeights` | src/components/3d/StylizedOcean.tsx:25-42 | stepping by 3 and writing only slot i+2 turns a buffer whose x/y slots are original into exactly `Displaced(original, time)` |
| `FloatingImage.DefaultProps` | src/components/3d/FloatingImage.tsx:18-22 | defaults: origin position, no rotation, scale 1, speed 1 |
| `FloatingImage.MountScale` | src/components/3d/FloatingImage.tsx:57 | a numeric scale is spread over all three axes; a triple is used as given |
| `FloatingImage.BaseScale` | src/components/3d/FloatingImage.tsx:47 | the base of the target is the x component of the mount scale (`scale` or `scale[0]`) |
| `FloatingImage.TargetScale` | src/components/3d/FloatingImage.tsx:42-47 | the target is `base * 1.1` while hovered and `base` otherwise |
| `FloatingImage.ThreeLerp` | src/components/3d/FloatingImage.tsx:47 | three.js's `(1-t)x + ty` equals the site's own `lerp` |
| `FloatingImage.EaseScale` | src/components/3d/FloatingImage.tsx:43-47 | the distance to the target becomes 0.9 times what it was; the target is a fixed point |
| `FloatingImage.EaseFramesDistance` | src/components/3d/FloatingImage.tsx:43-49 | after k frames with a fixed target the distance is `0.9^k` times the initial distance |
| `FloatingImage.EaseFramesApproach` | src/components/3d/FloatingImage.tsx:43-49 | the scale never overshoots: it stays between its start and the target |
| `FloatingImage.Object3D.constructor` | src/components/3d/FloatingImage.tsx:53-57 | the mesh is mounted with the props' position and rotation and the mount scale |
| `FloatingImage.Image.constructor` | src/components/3d/FloatingImage.tsx:25-28 | the phase offset is `random * 100`, in [0, 100); not hovered |
| `FloatingImage.Image.PointerOver` | src/components/3d/FloatingImage.tsx:58 | hovered becomes true |
| `FloatingImage.Image.PointerOut` | src/components/3d/FloatingImage.tsx:59 | hovered becomes false |
| `FloatingImage.Image.Frame` | src/components/3d/FloatingImage.tsx:30-50 | with no mesh nothing changes; otherwise y is within 0.2 of the prop's y, z-rotation within 0.05 of the prop's, other axes untouched, and all three scale axes take one easing step from the current x scale toward the target |
| `CardStack.CardTarget` | src/components/sections/apple/CardStack.tsx:57-59 | opacity is 0.8 or 1; for a real card the scale is at most 1 and y at most 0 |
| `CardStack.CardTargets` | src/components/sections/apple/CardStack.tsx:56-60 | one target per card, card i getting `CardTarget(n, i)` |
| `CardStack.InitialStyle` | src/components/sections/apple/CardStack.tsx:84-86 | `zIndex` is the index, the offset is `10 * i` px (so non-negative) and the scale `1 - 0.05 * i` (so at most 1) |
| `CardStack.PinLengthPercent` | src/components/sections/apple/CardStack.tsx:49 | the pin lasts `n * 100` percent |
| `CardStack.TopCard` | src/components/sections/apple/CardStack.tsx:57-59 | the last card ends at scale 1, y 0, opacity 1 |
| `CardStack.BehindCardsFade` | src/components/sections/apple/CardStack.tsx:59 | every card before the last fades to opacity 0.8 |
| `CardStack.StepBetweenCards` | src/components/sections/apple/CardStack.tsx:57-58 | consecutive cards differ by 0.05 in scale and 20 in y |
| `CardStack.TargetsIncrease` | src/components/sections/apple/CardStack.tsx:57-58 | scale and y strictly increase with the card index |
| `CardStack.InitialIsReversedTarget` | src/components/sections/apple/CardStack.tsx:86 | card i starts at the scale card `n-1-i` ends at |
| `CardStack.SiteStack` | src/components/sections/apple/CardStack.tsx:11-59 | for the section's four cards the targets are scale 0.85/0.9/0.95/1, y -60/-40/-20/0, opacity 0.8 except the top card's 1, and the pin lasts 400% |
| `ThemeProvider.Name` | src/components/providers/ThemeProvider.tsx:19 | a theme's name is "light" or "dark" |
| `ThemeProvider.ThemeClasses` | src/components/providers/ThemeProvider.tsx:78 | the managed classes contain every theme's name |
| `ThemeProvider.Toggle` | src/components/providers/ThemeProvider.tsx:100 | the toggled theme differs from the current one |
| `ThemeProvider.ToggleTwice` | src/components/providers/ThemeProvider.tsx:99-101 | toggling twice restores the theme |
| `ThemeProvider.Parse` | src/components/providers/ThemeProvider.tsx:160 | a stored value is accepted iff it is exactly "light" or "dark", and then it names the theme returned |
| `ThemeProvider.ParseName` | src/components/providers/ThemeProvider.tsx:156-161 | a stored theme name reads back as the same theme |
| `ThemeProvider.GetItem` | src/components/providers/ThemeProvider.tsx:159 | a lookup finds a value iff the key is stored, and it is the stored value |
| `ThemeProvider.GetSystemTheme` | src/components/providers/ThemeProvider.tsx:167-171 | dark on the server; in a browser, dark iff the user prefers dark |
| `ThemeProvider.GetStoredTheme` | src/components/providers/ThemeProvider.tsx:156-161 | nothing on the server; in a browser, a theme iff the stored item is "light" or "dark", and then the stored item is that theme's name |
| `ThemeProvider.GetInitialTheme` | src/components/providers/ThemeProvider.tsx:177-180 | the valid stored theme when there is one, else the system theme |
| `ThemeProvider.MountChoice` | src/components/providers/ThemeProvider.tsx:57-64 | a saved "light" or "dark" wins; anything else falls back to dark iff the user prefers dark |
| `ThemeProvider.MountChoiceIsInitialTheme` | src/components/providers/ThemeProvider.tsx:56-66 | the mount effect's choice equals `getInitialTheme` in the same browser |
| `ThemeProvider.Provider.constructor` | src/components/providers/ThemeProvider.tsx:42-50 | the first render holds the `defaultTheme` prop, or dark when it is not passed, and is not mounted |
| `ThemeProvider.Provider.MountEffect` | src/components/providers/ThemeProvider.tsx:56-66 | the theme becomes the mount choice, which is the initial theme, and the provider is mounted |
| `ThemeProvider.Provider.ApplyEffect` | src/components/providers/ThemeProvider.tsx:72-88 | nothing before mount; after it the root holds exactly the current theme's class among light/dark, other classes are kept, the storage key "one-piece-theme" holds the theme name so the stored theme reads back as the current one, and the transition property is set |
| `ThemeProvider.Provider.SetTheme` | src/components/providers/ThemeProvider.tsx:94-96 | the theme becomes the given one; mounted is kept |
| `ThemeProvider.Provider.ToggleTheme` | src/components/providers/ThemeProvider.tsx:99-101 | the theme becomes the toggle of the previous one; mounted is kept |
| `ThemeProvider.UseTheme` | src/components/providers/ThemeProvider.tsx:132-145 | with no context value (outside a provider, or under one that has not mounted): dark with disconnected setters; with one: that theme with live setters |
| `ThemeProvider.Provider.ChildContext` | src/components/providers/ThemeProvider.tsx:107-125 | before mount the children get the fallback (dark, setters disconnected), since no context is rendered; after mount, the provider's theme with live setters |
| `ThemeProvider.PreMountRequestsIgnored` | src/components/providers/ThemeProvider.tsx:117-145 | before mount, a child's set or toggle request leaves the provider's theme unchanged |
| `ThemeProvider.Dispatch` | src/components/providers/ThemeProvider.tsx:135-141 | a disconnected context's setters change nothing; a connected set applies its theme and a connected toggle changes the theme |
| `OnePieceQuotes.InitialIndex` | src/components/ui/OnePieceQuotes.tsx:89-91 | `floor(random * 12)` is a valid index and the floor of the product |
| `OnePieceQuotes.Next` | src/components/ui/OnePieceQuotes.tsx:97 | the next index stays in range: one more, or 0 after the last |
| `OnePieceQuotes.Rotate` | src/components/ui/OnePieceQuotes.tsx:96-98 | the index after k ticks is in range |
| `OnePieceQuotes.Ticks` | src/components/ui/OnePieceQuotes.tsx:86-98 | the number of callbacks fired after `elapsed` ms at the default 10000 ms period: the largest k with `k * 10000 <= elapsed` |
| `OnePieceQuotes.RotateIsModular` | src/components/ui/OnePieceQuotes.tsx:97 | k ticks give `(i + k) mod 12` |
| `OnePieceQuotes.FullCycle` | src/components/ui/OnePieceQuotes.tsx:97 | 12 ticks return to the starting quote |
| `OnePieceQuotes.RandomQuote` | src/components/ui/OnePieceQuotes.tsx:142-147 | the random quote is an element of the table |
| `OnePieceQuotes.QuoteRotator.constructor` | src/components/ui/OnePieceQuotes.tsx:83-91 | the widget starts at the random initial index |
| `OnePieceQuotes.QuoteRotator.Current` | src/components/ui/OnePieceQuotes.tsx:103 | the quote on screen is an element of the table |
| `OnePieceQuotes.QuoteRotator.Elapse` | src/components/ui/OnePieceQuotes.tsx:93-101 | without auto-rotation the index stays; with it, k ticks move it to `(old + k) mod 12` |
| `OnePieceQuotes.Clicked` | src/components/ui/OnePieceQuotes.tsx:166 | a click adds exactly 1 to the count and leaves the flag |
| `OnePieceQuotes.Hidden` | src/components/ui/OnePieceQuotes.tsx:194 | hiding clears the flag and keeps the count |
| `OnePieceQuotes.Settled` | src/components/ui/OnePieceQuotes.tsx:157-161 | after the effect the flag is set iff it was set or the count is at least 5; the count is kept |
| `OnePieceQuotes.HideIsUndone` | src/components/ui/OnePieceQuotes.tsx:194 | with 5 or more clicks, the effect after "Hide treasure" sets the flag again |
| `OnePieceQuotes.ClickTimesState` | src/components/ui/OnePieceQuotes.tsx:155-166 | after n clicks from the start the count is n and the treasure shows iff n >= 5 |
| `OnePieceQuotes.EasterEgg.constructor` | src/components/ui/OnePieceQuotes.tsx:154-155 | not discovered, zero clicks |
| `OnePieceQuotes.EasterEgg.Click` | src/components/ui/OnePieceQuotes.tsx:166 | the state becomes `Clicked` of the old state; discovered still implies 5 clicks |
| `OnePieceQuotes.EasterEgg.Hide` | src/components/ui/OnePieceQuotes.tsx:194 | the state becomes `Hidden` of the old state |
| `OnePieceQuotes.EasterEgg.RunEffect` | src/components/ui/OnePieceQuotes.tsx:157-161 | the state becomes `Settled` of the old state, after which discovered holds iff the count is at least 5 |
| `Contact.WithField` | src/components/sections/Contact.tsx:62-65 | the named field takes the value and every other field keeps its own |
| `Contact.SubjectIsOptional` | src/components/sections/Contact.tsx:73 | the subject never affects completeness |
| `Contact.Outcome` | src/components/sections/Contact.tsx:73-89 | success iff name, email and message are all non-empty, with the success message; otherwise error with "Please fill in all required fields!" |
| `Contact.MessagesShown` | src/components/sections/Contact.tsx:319 | the idle status shows no message and does not disable submit; loading shows "Sending transmission..." and disables submit (line 289); both outcomes show their message and re-enable submit |
| `Contact.ContactForm.constructor` | src/components/sections/Contact.tsx:48-60 | all fields empty, status idle with no message, sound off |
| `Contact.ContactForm.InputChange` | src/components/sections/Contact.tsx:62-65 | the form becomes `WithField(old form, field, value)`; status and sound are kept |
| `Contact.ContactForm.StartSubmit` | src/components/sections/Contact.tsx:67-72 | status becomes loading with "Sending transmission..."; the form data the delayed callback will see is returned; nothing else changes |
| `Contact.ContactForm.ResolveSubmit` | src/components/sections/Contact.tsx:72-91 | status becomes the outcome for the captured form; success resets the form to empty, error leaves it as it is |
| `Contact.ContactForm.ToggleSound` | src/components/sections/Contact.tsx:205 | sound flips; form and status are kept |
| `Navigation.SectionId` | src/components/navigation/Navigation.tsx:54 | the id is the href without its first character |
| `Navigation.SectionIds` | src/components/navigation/Navigation.tsx:54 | one id per nav item, in nav order |
| `Navigation.NavSectionIds` | src/components/navigation/Navigation.tsx:24-30 | the site's ids are hero, about, projects, skills, contact |
| `Navigation.FindFirst` | src/components/navigation/Navigation.tsx:55-62 | a found position holds a section with `top <= 100 <= bottom` and no earlier section does; nothing is found only when no section does |
| `Navigation.Progress` | src/components/navigation/Navigation.tsx:217-219 | 0 on the server; non-finite exactly when scrollHeight equals innerHeight; otherwise the ratio times the range is scrollY |
| `Navigation.ProgressUnclamped` | src/components/navigation/Navigation.tsx:218 | scrolled past the range, the ratio exceeds 1 |
| `Navigation.NavBar.constructor` | src/components/navigation/Navigation.tsx:40-42 | menu closed, not scrolled, active section "hero" |
| `Navigation.NavBar.HandleScroll` | src/components/navigation/Navigation.tsx:49-68 | scrolled iff scrollY > 50; the first matching section in nav order becomes active when it is non-empty; otherwise the active section is kept; the menu is kept |
| `Navigation.NavBar.ScrollToSection` | src/components/navigation/Navigation.tsx:79-85 | the menu closes iff the target element exists; otherwise it is unchanged |
| `Navigation.NavBar.ToggleMenu` | src/components/navigation/Navigation.tsx:164 | the menu flips; the rest is kept |
| `Navigation.ScrollActivatesFirstMatch` | src/components/navigation/Navigation.tsx:55-67 | whenever some section straddles the line, one at or before it is found and has a non-empty id, so the handler activates it |
| `StatusFilter.Filter` | src/components/sections/EnhancedProjects.tsx:131-133 | exactly the projects with filter "all" or a matching status, each as often as in the table, as an order-preserving subsequence |
| `StatusFilter.FilterAll` | src/components/sections/EnhancedProjects.tsx:131-133 | filter "all" returns the table unchanged |
| `StatusFilter.FilterCount` | src/components/sections/Projects.tsx:82-85 | a specific filter keeps as many projects as have that status |
| `StatusFilter.FiltersPartition` | src/components/sections/Projects.tsx:82-85 | when every status is one of the three, the three specific filters' sizes add up to the table's |
| `StatusFilter.CountsPartition` | src/components/sections/Projects.tsx:20 | status counts over three distinct statuses add up to the table size |
| `StatusFilter.TwoFiltersPartition` | src/components/sections/EnhancedProjects.tsx:131-133 | when every status is one of two distinct specific values, their two filters' sizes add up to the table's |
| `StatusFilter.Preview` | src/components/sections/EnhancedProjects.tsx:270 | `slice(0, limit)` is a prefix of length `min(length, limit)` |
| `EnhancedProjects.Visible` | src/components/sections/EnhancedProjects.tsx:131-133 | "all" shows the whole table; otherwise a project shows iff it is in the table and matches |
| `EnhancedProjects.StatusButtonsPartition` | src/components/sections/EnhancedProjects.tsx:120-133 | the first button is "all"; when every status is "completed" or "in-progress", those two buttons show each project exactly once between them |
| `EnhancedProjects.TableStatusButtons` | src/components/sections/EnhancedProjects.tsx:120-133 | every project in the gallery's table has one of the two button statuses, and the two buttons split the table |
| `EnhancedProjects.Badges` | src/components/sections/EnhancedProjects.tsx:270 | at most 4 badges, a prefix of the technologies, all of them when there are at most 4 |
| `EnhancedProjects.Overflow` | src/components/sections/EnhancedProjects.tsx:275-279 | an overflow count exists iff there are more than 4 technologies, and it is positive |
| `EnhancedProjects.BadgesAccountForAll` | src/components/sections/EnhancedProjects.tsx:270-279 | shown badges plus the overflow count equal the number of technologies |
| `EnhancedProjects.Digit` | src/components/sections/EnhancedProjects.tsx:277 | a digit value becomes a character '0'..'9' |
| `EnhancedProjects.Decimal` | src/components/sections/EnhancedProjects.tsx:277 | the rendering of k is a non-empty run of digits without a leading zero |
| `EnhancedProjects.DecimalRoundTrip` | src/components/sections/EnhancedProjects.tsx:277 | reading the digits back gives k |
| `EnhancedProjects.OverflowLabel` | src/components/sections/EnhancedProjects.tsx:275-279 | the badge text is "+" followed by the digits of k |
| `EnhancedProjects.StatusBadge` | src/components/sections/EnhancedProjects.tsx:327-331 | gold iff the status is "completed"; the label is "✓ Completed" exactly for gold and "⚡ In Progress" otherwise |
| `Projects.StatusButtonsPartition` | src/components/sections/Projects.tsx:20-85 | the buttons are "all" then the three statuses; when every status is one of the three, the three status buttons show each project exactly once between them |
| `Projects.TableStatusButtons` | src/components/sections/Projects.tsx:20-85 | the grid's table has only the three statuses, so its three status buttons split it |
| `Projects.PreviewTechnologies` | src/components/sections/Projects.tsx:234 | at most 3 technologies, a prefix, all of them when there are at most 3 |
| `Projects.UpperChar` | src/components/sections/Projects.tsx:281 | lower-case ASCII letters become upper-case; other characters are unchanged |
| `Projects.Capitalize` | src/components/sections/Projects.tsx:281 | same length, first character raised, the rest unchanged; "" stays "" |
| `Projects.StatusLabels` | src/components/sections/Projects.tsx:281 | "completed", "in-progress" and "planned" become "Completed", "In-progress" and "Planned" |
| `Projects.CapitalizeIdempotent` | src/components/sections/Projects.tsx:281 | capitalising twice equals capitalising once |
| `Projects.ProjectGrid.constructor` | src/components/sections/Projects.tsx:79-80 | filter "all", nothing selected |
| `Projects.ProjectGrid.Visible` | src/components/sections/Projects.tsx:82-85 | the cards are exactly the matching table entries, in table order |
| `Projects.ProjectGrid.SetFilter` | src/components/sections/Projects.tsx:168 | the filter becomes the chosen value; the selection is kept |
| `Projects.ProjectGrid.MouseEnter` | src/components/sections/Projects.tsx:198 | the hovered card's id is selected, and exactly its icon animates (line 211) |
| `Projects.ProjectGrid.MouseLeave` | src/components/sections/Projects.tsx:199 | nothing is selected and no icon animates |

## Left out

- Floating point: numbers are exact reals, so rounding, overflow to Infinity and NaN are not modelled.
- Trigonometry and square roots: only the bounds of sine, cosine and `sqrt` are known to the model. `atan2` is unconstrained.
- `Math.random()`: its results are parameters.
- `FloatingParticles.Repel`: does not state that a point inside the radius actually moves, because the trigonometric values are parameters and may both be 0 in the model.
- `FloatingParticles.RepelsOnlyInside`: assumes `sqrt` is exact at the squared distance, because `sqrt` is a parameter.
- Particle matrices: `Object3D.updateMatrix` and `setMatrixAt` compose a 4x4 matrix from position, rotation and scale. The model stores those three components in the instance slot instead.
- `mapRange` with `inMin == inMax` is excluded by a precondition. There JavaScript yields a non-finite value or NaN, which reals cannot represent.
- `Navigation.Progress` represents every non-finite ratio (Infinity or NaN) by `None`.
- Timing: the frame loop, the clock, the quote interval's period and the contact form's 2 s delay are not modelled.
  - Frames are method calls with the elapsed time as a parameter.
  - The interval is a number of ticks.
  - The submit is two calls, `StartSubmit` then `ResolveSubmit`, with the captured form data passed between them.
- React scheduling: effects run when the caller invokes them. Batched state updates are not modelled.
- GSAP and Framer Motion: only the card stack's tween targets and pin length are modelled, not the scroll-scrubbed interpolation.
- Only `#id` selectors are considered for `document.querySelector` in `scrollToSection`. The smooth scroll itself is DOM behaviour and is not modelled.
- The scroll handler's listener registration and removal are DOM behaviour and are not modelled.
- `handleInputChange` is modelled for the form's four named inputs only. An input with another `name` would add a new key.
- The success branch's sound effect is a console message and is not modelled.
- `Projects.UpperChar`: raises only ASCII letters. The status values are ASCII. JavaScript's full Unicode `toUpperCase`, which can change a string's length, is not modelled.
- The ocean's geometry: three.js's plane vertex layout is not modelled. The ocean takes the geometry's buffer, with the 51 x 51 vertex length, as given.
- Markup-only values are not modelled: materials, colours, the ocean mesh's rotation and position, CSS classes, and the `showCharacter` flag.
- The theme provider's pre-mount wrapper markup (its classes) and the hydration concern behind it are not modelled. What children read in that phase is modelled by `ThemeProvider.Provider.ChildContext`.
- `EnhancedProjects.StatusBadge`: the source file stores the check mark and the lightning sign as mis-decoded bytes, so the page shows garbled characters such as "‚úì". The model uses the intended "✓ Completed" and "⚡ In Progress".
- `Contact.Outcome`: the source file stores the success message's snail emoji as mis-decoded bytes, so the page shows garbled characters. The model's message ends in the intended snail emoji (U+1F40C).
- Quote texts: all twelve entries are in the table, but only membership and count are used.
