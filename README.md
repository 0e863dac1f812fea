# audio-visual: a verified model of its behavioural core

This project models the parts of the audio-visual web application that behave rather than
only display. Each part is a Dafny module, and each operation is proved against a contract.

- **OrbRenderer** — the audio-reactive sphere of dots on the recording screen.
  - The `Orb` class keeps the rotation, the smoothed globe radius and the 1500 dots, and
    `Frame` performs one animation step.
  - On each frame the radius moves a quarter of the way to its target. The analyser's bytes
    become a noise factor, each dot's radius is clamped, and every dot is moved and
    projected.
  - The draw calls a frame would issue to the canvas are returned as values.
- **BlobPath** — the random blob logos: points on a ragged circle, and the closed quadratic
  SVG path through them.
- **ModalState** and **ToastState** — the four-phase open/close reducers behind the modal
  and the toast. JavaScript's `switch` fall-through is reproduced exactly.
- **HoneypotServer** — the spam trap on forms.
  - The `Honeypot` class holds its configuration. `Check` runs the ordered guards (the trap
    field, then the encrypted valid-from time), and `CheckHoneypot` turns a spam error into
    a 400 response.
- **UrlUtils** — `safeRedirect` (no open redirects), trailing-slash removal, the canonical
  page URL, and the domain URL taken from the request headers.
- **ControlPanel** — the developer control panel.
  - Default values per field kind, and the nested fieldset → field → value map built from
    the schema.
  - The provider's `get`/`set` store, the context it exposes, and the truthiness guard on
    the vector inputs.
- **ListField** — the row-key list of repeatable form fields: initial keys, `add`,
  `remove`, when removal is offered, and the entries handed to each row.
- **RequestStatus**, **NumberParam**, **RecordingKey** — the fetcher-state to button-status
  mapping, the `/^\d+$/` route-parameter test, and the storage key of a recording.

**Shared helper modules:**
- Wrappers: `Option`, `Result` and `Outcome`.
- Numeric: floor, round, and lemmas about real products.
- Decimal: the decimal rendering of integers and its inverse.

**Foreign functions as parameters.** Trigonometry, the simplex noise field, `Math.random`,
AES, the clock and `Number(string)` are passed in as parameters:
- `Maths` is a record of function values. The predicate `Lawful` states the facts the
  proofs use: the ranges of sin, cos and acos, sin² + cos² = 1, and π > 3.
- `Env` plays the same role for the honeypot.

**Action creators.** Modal and Toast actions are built with the `OpenStart` … `PreventClose`
constructors. These are wrapped by `OpenAction`, `CloseAction`, `AllowCloseAction` and
`PreventCloseAction`.

## Model

| member | source | states |
|---|---|---|
| OrbRenderer.CreateDot | app/routes/recordings.new.tsx:346-357 | the new dot has the given location and angles and a zeroed projection |
| OrbRenderer.ColorByNoise | app/routes/recordings.new.tsx:359-375 | every noise value, in range or not, yields one of the six palette colours |
| OrbRenderer.ColorBand | app/routes/recordings.new.tsx:373-375 | noise in the k-th sixth of [-1, 1) selects palette entry k |
| OrbRenderer.ColorFallback | app/routes/recordings.new.tsx:373-375 | noise below -1 or at least 1 indexes outside the palette and falls back to the first colour |
| OrbRenderer.GetByteFrequencyData | app/routes/recordings.new.tsx:481-483 | the buffer keeps its length; the current bins are copied over its prefix and any elements beyond the last bin are kept |
| OrbRenderer.SumBound | app/routes/recordings.new.tsx:486-487 | the sum of n bytes is at most 255·n |
| OrbRenderer.SumAllLoud | app/routes/recordings.new.tsx:486-487 | n bytes that are all 255 sum to exactly 255·n |
| OrbRenderer.AverageFactor | app/routes/recordings.new.tsx:486-490 | reducing an empty buffer without an initial value fails; otherwise the factor is non-negative and factor·binCount·80 equals the byte sum |
| OrbRenderer.FilledData | app/routes/recordings.new.tsx:481-483 | a buffer exists after the frame exactly when one existed before; without an analyser it is not written; its length never changes |
| OrbRenderer.NoiseFactor | app/routes/recordings.new.tsx:479-491 | the factor is exactly 0 when the analyser or the buffer is missing; it fails only for an empty buffer; a success is never negative |
| OrbRenderer.NoiseFactorRange | app/routes/recordings.new.tsx:479-491 | with the buffer sized to the bin count, the factor succeeds and lies in [0, 255/80], and it reaches 255/80 when every bin is 255 |
| OrbRenderer.Smooth | app/routes/recordings.new.tsx:469-471 | the new radius lies between the old radius and the target, and the remaining gap is three quarters of the old gap |
| OrbRenderer.PowBetween | app/routes/recordings.new.tsx:469-471 | the per-frame shrink factor (3/4)^n stays in (0, 1] |
| OrbRenderer.SmoothNGap | app/routes/recordings.new.tsx:469-471 | after n frames toward a fixed target, the remaining gap is exactly (3/4)^n times the initial gap, on the same side of the target |
| OrbRenderer.PowTwentyFrames | app/routes/recordings.new.tsx:469-471 | the shrink factor after twenty frames, (3/4)^20, is below 1/100 |
| OrbRenderer.SettlesInTwentyFrames | app/routes/recordings.new.tsx:469-471 | twenty frames toward a fixed target leave at most 1% of the initial gap, and strictly less than 1% of any non-zero gap |
| OrbRenderer.SmoothKeepsBand | app/routes/recordings.new.tsx:469-471 | a radius between the idle and active targets (0.15·height and 0.4·height) stays between them after smoothing toward either target |
| OrbRenderer.AnimatedRadius | app/routes/recordings.new.tsx:507-515 | while idle the dot radius is the current radius regardless of noise; while active it is the noise-pushed radius clamped to [0.35·height, 0.65·height], with each clamp side stated |
| OrbRenderer.SphericalPoint | app/routes/recordings.new.tsx:518-520 | the recomputed location lies on the sphere of that radius around the globe centre |
| OrbRenderer.Project | app/routes/recordings.new.tsx:412-424 | size·(FOV − rotZ) = FOV, size is positive exactly when rotZ < FOV, and x and y are rotX·size and y·size offset by the canvas centre |
| OrbRenderer.InFront | app/routes/recordings.new.tsx:416-419 | a rotated point of a sphere no larger than 0.65·height is never behind the field of view, so the projection never divides by zero |
| OrbRenderer.MovedDot | app/routes/recordings.new.tsx:517-522 | moving a dot keeps its angles, puts it on the sphere of the animated radius, and gives it a projection of positive size |
| OrbRenderer.NewDot | app/routes/recordings.new.tsx:446-456 | theta is u·2π, phi is acos(2v − 1), the location is the spherical point of the current radius, and the projection is zero |
| OrbRenderer.NewDotAngles | app/routes/recordings.new.tsx:447-448 | random samples in [0, 1) give theta in [0, 2π), phi in [0, π], and a dot on the sphere |
| OrbRenderer.AzimuthRange | app/routes/recordings.new.tsx:447 | a sample in [0, 1) times 2π is an azimuth in [0, 2π) |
| OrbRenderer.CreatedDotIsNewDot | app/routes/recordings.new.tsx:446-456 | the dot built from the loop's spelled-out theta, phi and x, y, z coordinates is the specification's new dot |
| OrbRenderer.NewDots | app/routes/recordings.new.tsx:441-458 | exactly 1500 dots, the k-th built from the k-th pair of random samples |
| OrbRenderer.Draw | app/routes/recordings.new.tsx:427-439 | the arc is drawn at the projected point with radius dotRadius·size, alpha equal to the size, and the given colour |
| OrbRenderer.AnimatedDot | app/routes/recordings.new.tsx:496-521 | in a frame, a dot keeps its angles and moves to the sphere of its animated radius, with a projection of positive size |
| OrbRenderer.DotCall | app/routes/recordings.new.tsx:496-528 | each dot's draw call has positive alpha, a palette colour, an arc radius scaled by the active or idle dot radius, and the moved dot's projected position |
| OrbRenderer.AnimateDot | app/routes/recordings.new.tsx:496-528 | one loop iteration yields exactly the moved dot and the draw call of the frame specification |
| OrbRenderer.Orb.Setting | app/routes/recordings.new.tsx:399-410 | a valid orb gives a frame setting with positive height, lawful maths and a radius in the idle–active band |
| OrbRenderer.Orb.constructor | app/routes/recordings.new.tsx:390-410 | starts with rotation 0 and radius 0.35·height, holds 1500 fresh dots built from the random samples, and is valid |
| OrbRenderer.Orb.CreateDots | app/routes/recordings.new.tsx:441-458 | from valid settings, empties the dots and pushes the 1500 new dots of the current radius, leaving the orb valid; rotation and radius are untouched |
| OrbRenderer.Orb.Frame | app/routes/recordings.new.tsx:463-530 | keeps the orb valid; smooths the radius; sets the rotation to time·0.0002; fills the buffer; fails exactly when the noise factor fails, leaving the dots alone; otherwise keeps the dot count and replaces every dot and draw call by its per-dot specification |
| BlobPath.RandomFloatBetween | app/routes/recordings.new.tsx:1052-1054 | a seed in [0, 1] lands in [min, max], with seed 0 at min and seed 1 at max |
| BlobPath.RandomFloatBetweenMonotonic | app/routes/recordings.new.tsx:1052-1054 | a larger seed gives a strictly larger value when min < max |
| BlobPath.RandomIntBetween | app/routes/recordings.new.tsx:1056-1058 | the result is the floor of the float between min and max |
| BlobPath.RandomIntBetweenRange | app/routes/recordings.new.tsx:1056-1058 | a seed in [0, 1) gives an integer in [min, max), or min when min = max |
| BlobPath.BlobEdges | app/routes/recordings.new.tsx:1091-1092 | a blob has between 8 and 35 edges |
| BlobPath.Divide | app/routes/recordings.new.tsx:1025-1031 | n angles starting at 0, each in [0, 360), with consecutive angles 360/n apart |
| BlobPath.DivideIncreasing | app/routes/recordings.new.tsx:1025-1031 | the angles are strictly increasing |
| BlobPath.Point | app/routes/recordings.new.tsx:1033-1045 | the rounded point is within the radius (plus the rounding half) of the origin on each axis |
| Numeric.Round | app/routes/recordings.new.tsx:1044 | rounding to the nearest integer, with halves rounded up |
| Numeric.Floor | app/routes/recordings.new.tsx:1057 | the greatest integer not above x |
| BlobPath.InnerRadius | app/routes/recordings.new.tsx:985-989 | the inner radius lies in [0, size/2] |
| BlobPath.CreatePoints | app/routes/recordings.new.tsx:976-1001 | the seed used is the given one or else the random one; one point per edge, the k-th at the k-th angle with a radius between the inner and outer radius; every point lies within the blob's box |
| BlobPath.CreateSvgPath | app/routes/recordings.new.tsx:1003-1019 | fails exactly for fewer than two points (where the source reads past the array); otherwise builds the move-to followed by the accumulated segments |
| BlobPath.SegmentLetters | app/routes/recordings.new.tsx:1011-1016 | each loop segment contains exactly one Q command and no M or Z |
| BlobPath.SegmentsLetters | app/routes/recordings.new.tsx:1011-1016 | k loop iterations contribute exactly k Q commands and no M or Z |
| BlobPath.MoveToLetters | app/routes/recordings.new.tsx:1005-1009 | the start of the path is a single M command at the midpoint of the first two points |
| BlobPath.SvgPathShape | app/routes/recordings.new.tsx:1003-1019 | the path starts with M, ends with Z, and holds one M, one Z and one Q per point |
| BlobPath.BlobGenerator | app/routes/recordings.new.tsx:962-974 | size and edges default to 400 and 6; a path exists exactly for two or more edges, and it has one Q per edge, one M and one Z, so the default blob has six curves |
| BlobPath.Blob | app/routes/recordings.new.tsx:1091-1096 | every blob logo has a path with between 8 and 35 curve segments |
| ModalState.InitialState | app/components/impl/Modal.tsx:112-115 | closed, closable, with no children |
| ModalState.Reduce | app/components/impl/Modal.tsx:54-110 | ALLOW and PREVENT set canClose in every phase; OPEN_START opens from closed or closing with the new children and is ignored otherwise; OPEN_END and CLOSE_END finish their transitions only from opening and closing; CLOSE_START closes from opening or open only when closable; closed ignores everything else |
| ModalState.DerivedFlags | app/components/impl/Modal.tsx:145-158 | visible exactly when not closed; open implies visible and shown; the dialog is shown exactly when visible and not closing |
| ModalState.ReachableHasChildren | app/components/impl/Modal.tsx:54-110 | once any phase other than closed carries children, every later non-closed state carries children |
| ModalState.OpenCloseCycle | app/components/impl/Modal.tsx:54-128 | open, open-end, close and close-end from the initial state pass through opening, open and closing, and end closed and closable with the children kept |
| ModalState.PreventCloseHolds | app/components/impl/Modal.tsx:56-105 | after PREVENT_CLOSE on an opening or open modal, any number of close requests leave it exactly as it was |
| ToastState.InitialState | app/components/impl/Toast.tsx:98-101 | closed, closable, with no children |
| ToastState.Reduce | app/components/impl/Toast.tsx:52-96 | no action changes canClose; the open/close transitions are the modal ones, and every other phase–action pair leaves the state unchanged |
| ToastState.DerivedFlags | app/components/impl/Toast.tsx:129-142 | visible exactly when not closed; open implies visible and shown; the toast is shown exactly when visible and not closing |
| ToastState.CanCloseInvariant | app/components/impl/Toast.tsx:52-96 | any sequence of actions preserves canClose |
| ToastState.ReachableCanClose | app/components/impl/Toast.tsx:52-101 | every state reachable from the initial state can close |
| ToastState.ReachableCloseStarts | app/components/impl/Toast.tsx:85-91 | in every reachable opening or open state, CLOSE_START always moves to closing |
| ToastState.ReachableHasChildren | app/components/impl/Toast.tsx:52-96 | once any phase other than closed carries children, every later non-closed state carries children |
| HoneypotServer.Get | app/utils/honeypot.server.ts:45 | a form value is found exactly when the form has that key |
| HoneypotServer.ValidTimeStampMeaning | app/utils/honeypot.server.ts:118-123 | a timestamp is valid exactly when it is a finite number strictly between 0 and MAX_SAFE_INTEGER |
| HoneypotServer.Honeypot.constructor | app/utils/honeypot.server.ts:16-22 | the given configuration, or the empty one when none is given |
| HoneypotServer.Honeypot.NameFieldName | app/utils/honeypot.server.ts:65-69 | the configured or default base name, with "_" and a random suffix only when randomization is on |
| HoneypotServer.Honeypot.ValidFromFieldName | app/utils/honeypot.server.ts:71-73 | the configured name, or "honeypot_from" |
| HoneypotServer.Honeypot.ValidFromTimestamp | app/utils/honeypot.server.ts:75-77 | the configured timestamp, or the clock |
| HoneypotServer.Honeypot.EncryptionSeed | app/utils/honeypot.server.ts:79-81 | the configured seed, or a random value |
| HoneypotServer.Honeypot.FirstKeyStartingWith | app/utils/honeypot.server.ts:83-91 | a returned key is the key of the first entry, in form order, whose key starts with the base name; nothing is returned exactly when no form key does |
| HoneypotServer.Honeypot.GetRandomizedNameFieldName | app/utils/honeypot.server.ts:83-91 | the loop over form keys returns the first key, in form order, that starts with the base name |
| HoneypotServer.Honeypot.CheckedName | app/utils/honeypot.server.ts:33-37 | without randomization, the field checked is the configured or default base name; with it, the first form key starting with the base name, or the base name when no key does |
| HoneypotServer.Honeypot.Check | app/utils/honeypot.server.ts:32-63 | the guard sequence has exactly the outcome of the check's specification, whose lemmas follow |
| HoneypotServer.Honeypot.AcceptsFormsWithoutTrap | app/utils/honeypot.server.ts:32-39 | a form with neither the trap field nor the valid-from field is accepted without further inspection |
| HoneypotServer.Honeypot.RejectsFilledTrap | app/utils/honeypot.server.ts:41-47 | with the trap field present, the form is rejected as "Honeypot input not empty" exactly when its value is not the empty string |
| HoneypotServer.Honeypot.RejectsMissingTrap | app/utils/honeypot.server.ts:39-43 | a valid-from field without the trap field is rejected as "Missing honeypot input" |
| HoneypotServer.Honeypot.NoTimestampNoValidFrom | app/utils/honeypot.server.ts:48 | without a configured timestamp, the decryption, clock and parsing are never consulted, and every rejection is a spam error |
| HoneypotServer.Honeypot.AcceptsEmptyTrapWithoutTimestamp | app/utils/honeypot.server.ts:39-48 | without a configured timestamp, a form whose trap field is present and empty is accepted |
| HoneypotServer.Honeypot.ValidFromGuards | app/utils/honeypot.server.ts:48-62 | with a timestamp configured and an empty trap, the form is rejected, in order, for a missing valid-from, an empty decryption, or an invalid time, and is otherwise accepted exactly when the time is not in the future |
| HoneypotServer.RandomizedNameMeetsValidFromFirst | app/utils/honeypot.server.ts:33-47 | with randomized names, a valid-from entry listed before the trap is taken as the trap, because "honeypot_from" starts with "honeypot", and a genuine form is rejected |
| HoneypotServer.ValidFromStartsWithName | app/utils/honeypot.server.ts:66-73 | the default valid-from name starts with the default trap name |
| HoneypotServer.MakeHoneypot | app/utils/honeypot.server.ts:126-130 | the configuration holds only the seed, so the timestamp guards are never reached |
| HoneypotServer.MadeHoneypotChecksTrapOnly | app/utils/honeypot.server.ts:32-48 | for a honeypot from `makeHoneypot` and a form carrying "honeypot", the form passes exactly when that field is empty, and is otherwise rejected as "Honeypot input not empty" |
| HoneypotServer.CheckHoneypotOutcome | app/utils/honeypot.server.ts:132-141 | acceptance passes through; a spam error becomes a 400 "Form not submitted properly" response; any other error is rethrown unchanged |
| HoneypotServer.CheckHoneypot | app/utils/honeypot.server.ts:132-141 | the wrapper's outcome is the translated outcome of the check |
| UrlUtils.SafeRedirect | app/utils/index.ts:12-25 | the result is the target or the default ("/" unless given); the target is returned exactly when it is a string starting with "/" but not "//" |
| UrlUtils.SafeRedirectIsLocal | app/utils/index.ts:12-25 | any result other than the default is a local path, never a network-path reference |
| UrlUtils.RemoveTrailingSlash | app/utils/index.ts:44-46 | exactly one trailing slash is removed when present; otherwise the string is unchanged |
| UrlUtils.RemoveTrailingSlashNotIdempotent | app/utils/index.ts:44-46 | "a//" becomes "a/", which a second application changes again |
| UrlUtils.RemoveTrailingSlashResult | app/utils/index.ts:44-46 | the result still ends with a slash exactly when the input ended with two |
| UrlUtils.GetUrl | app/utils/index.ts:48-52 | origin then path (default "https://wking.dev"), with one trailing slash removed |
| UrlUtils.GetUrlDefault | app/utils/index.ts:48-52 | without request information the URL is "https://wking.dev" |
| UrlUtils.GetUrlPrefix | app/utils/index.ts:48-52 | the URL is a prefix of origin + path, at most one character shorter |
| UrlUtils.Includes | app/utils/index.ts:40 | the substring test holds exactly when the substring occurs at some position |
| UrlUtils.GetDomainUrl | app/utils/index.ts:34-42 | X-Forwarded-Host is used whenever present, and an empty one fails rather than falling back; otherwise host is used; with no usable host, "Could not determine domain URL." |
| UrlUtils.DomainUrlProtocol | app/utils/index.ts:40-41 | the URL is http exactly for hosts containing "localhost", https otherwise, and ends with the host |
| ControlPanel.DefaultFieldValue | app/hooks/useControlPanel.tsx:82-94 | the value has the field's kind; an explicit default wins, else 50, black or [0, 0] |
| ControlPanel.FieldDefaultsKeys | app/hooks/useControlPanel.tsx:103-105 | a fieldset's value map has exactly the names of its fields |
| ControlPanel.FieldDefaultsLast | app/hooks/useControlPanel.tsx:103-105 | a name's value is the default of its last field, so later duplicates overwrite earlier ones |
| ControlPanel.SchemaDefaultsKeys | app/hooks/useControlPanel.tsx:101-107 | the result has exactly the fieldset names of the schema |
| ControlPanel.SchemaDefaultsLast | app/hooks/useControlPanel.tsx:101-107 | a fieldset name maps to the field defaults of the last fieldset with that name |
| ControlPanel.GenerateFields | app/hooks/useControlPanel.tsx:97-109 | the nested loops build exactly the schema's default map |
| ControlPanel.ControlPanelStore.constructor | app/hooks/useControlPanel.tsx:314 | the store starts from the schema's defaults |
| ControlPanel.ControlPanelStore.Get | app/hooks/useControlPanel.tsx:325-328 | the stored value; undefined for a missing field; a type error for a missing fieldset |
| ControlPanel.ControlPanelStore.Set | app/hooks/useControlPanel.tsx:316-323 | succeeds exactly for an existing fieldset; the written value reads back, every other value is unchanged, and the top-level data key appears |
| ControlPanel.ProvidedContext | app/hooks/useControlPanel.tsx:330-337 | the context is inactive exactly when not shown, and otherwise carries the schema and the data |
| ControlPanel.UpdateVectorX | app/hooks/useControlPanel.tsx:405-409 | an update happens exactly for a truthy input, and it replaces only x |
| ControlPanel.UpdateVectorY | app/hooks/useControlPanel.tsx:420-424 | an update happens exactly for a truthy input, and it replaces only y |
| ControlPanel.ZeroIgnored | app/hooks/useControlPanel.tsx:405-424 | typing 0 or clearing an input never updates the vector |
| ListField.Ids | app/components/kits/ListField.tsx:9 | the ids of the items, in order |
| ListField.InitialList | app/components/kits/ListField.tsx:8-10 | the item ids when there are items, otherwise a single fresh key; never empty |
| ListField.Without | app/components/kits/ListField.tsx:16-18 | the removed key is gone and every other key keeps its number of occurrences (as multisets, the result is the list with that key's count set to zero) |
| ListField.WithoutIsSubsequence | app/components/kits/ListField.tsx:16-18 | the remaining keys keep their original order |
| ListField.WithoutCount | app/components/kits/ListField.tsx:16-18 | with distinct keys, removal shortens the list by one exactly when the key was present |
| ListField.OfferedRemoveKeepsNonEmpty | app/components/kits/ListField.tsx:16-22 | when the hook offers `remove` for a list of distinct keys, removing any key leaves at least one key |
| ListField.DuplicateKeysCanEmpty | app/components/kits/ListField.tsx:16-22 | with a repeated key, the offered removal can empty the list |
| ListField.FindIndex | app/components/kits/ListField.tsx:45 | the position of the first item with that id, or the end when there is none |
| ListField.Entries | app/components/kits/ListField.tsx:44-56 | one entry per key, carrying the key, its index and the first item with that id, if any |
| ListField.ListFieldState.constructor | app/components/kits/ListField.tsx:8-10 | the state starts from the initial list |
| ListField.ListFieldState.ShowRemove | app/components/kits/ListField.tsx:20-22 | removal is offered exactly when there is more than one key |
| ListField.ListFieldState.Add | app/components/kits/ListField.tsx:12-14 | exactly one key is appended and the earlier keys are unchanged |
| ListField.ListFieldState.Remove | app/components/kits/ListField.tsx:16-18 | the list becomes the old list without every occurrence of the key |
| RequestStatus.RequestStateToStatus | app/utils/request-to-status.ts:3-15 | pending exactly when loading or submitting; success exactly when idle with a success result; idle otherwise |
| NumberParam.MatchDigitsToEndMeaning | app/utils/is-number-param.ts:1-4 | the anchored `\d*` matches exactly when every remaining character is a digit |
| NumberParam.IsNumberParamMeaning | app/utils/is-number-param.ts:1-4 | accepted exactly when non-empty and all ASCII digits |
| NumberParam.ConcatAccepted | app/utils/is-number-param.ts:1-4 | two accepted strings, concatenated, are accepted |
| NumberParam.RenderingAccepted | app/utils/is-number-param.ts:1-4 | the decimal rendering of every natural number is accepted |
| NumberParam.Examples | app/utils/is-number-param.ts:1-4 | "007" is accepted; the empty string, a sign, a decimal point and surrounding spaces are rejected |
| RecordingKey.MakeRecordingKey | app/utils/make-recording-key.ts:4-9 | the id's decimal rendering, then "-", then the audio key, with the lengths adding up |
| RecordingKey.IdBeforeFirstDash | app/utils/make-recording-key.ts:4-9 | for non-negative ids, the text before the first "-" is exactly the id |
| RecordingKey.KeyInjective | app/utils/make-recording-key.ts:4-9 | for non-negative ids, a key determines both the id and the audio key |

## Left out

- Canvas drawing and scheduling are left out: `clearRect`, `beginPath`/`arc`/`fill` and `requestAnimationFrame`. `Frame` returns the arguments of each arc, alpha and fill as a `DrawCall`. It does not model that the canvas ignores a `globalAlpha` above 1.
- Trigonometry, simplex noise and `Math.random` are parameters.
  - `Maths` supplies sin, cos, acos and π; `Lawful` states the facts the proofs rely on.
  - `noise3D` is a function value held by the `Orb`.
  - The random samples are sequences passed to `CreateDots`, `CreatePoints` and `Blob`.
  - The quality of the random distribution on the sphere is not modelled.
- Numbers are exact reals. IEEE-754 rounding, NaN and Infinity are not modelled. This is also why `Project` requires rotZ ≠ FOV; `InFront` proves that every projection a frame makes meets that requirement.
- The `Orb` requires a positive canvas height, because the radius band and the field of view scale with it.
- The `Analyser`'s bin count is limited to 16..16384, the range the Web Audio API gives `frequencyBinCount`.
- OrbRenderer.Orb.Frame: dots are values in a sequence, so the source's in-place update of each dot's `location` and shared `projection` object becomes a replacement of the whole dot; object identity is not modelled.
- BlobPath.Blob: requires a seed in [0, 1). That is the range of the `Math.random()` seeds the page passes in at app/routes/recordings.new.tsx:166-188.
- BlobPath.CreateSvgPath: for fewer than two points the source reads a property of a missing array element and throws a TypeError; the model returns `None` for that error.
- `shuffle`, the `console.log` in `createPoints`, the logo's colour and position tables, and the SVG markup are left out.
- Honeypot foreign calls are parameters of `Env`:
  - AES encryption and decryption; a decryption that throws is a `Failure`, which `check` passes on as a non-spam error;
  - `randomValue`, `Date.now` and `Number(string)`;
  - `FormData` is an ordered list of entries.
- `getInputProps` and `encrypt` are left out; they produce the hidden inputs and are not part of the check. The `amountOfSeconds` and `honeypotFieldsRequiredForAllForms` options are never read by the source and are not in `Config`.
- A configured `validFromTimestamp` is a real number, so a configured NaN is not modelled. A configured `0` is falsy and counts as unset in `check`; the model keeps that case.
- The promise-based `useCloseModal`/`useCloseToast` hooks, the portals, the route effects and the React context plumbing are left out. They are timers, DOM and rendering.
- ModalState / ToastState: the `children` of a closed state are kept from the last opening, as the object spread keeps them; rendering them is left out.
- UrlUtils.GetDomainUrl: headers are a map from lower-cased names, so the case-insensitive lookup of `Headers.get` is assumed rather than modelled.
- `slugit`, `formatDate` and `randomKey` are not part of this model: they call libraries, `Intl` and randomness. `ListFieldState.Add` takes the fresh key as a parameter.
- ControlPanel.ControlPanelStore.Set: the top-level `data` entry that `set` adds is recorded only as the flag `hasDataKey`. Its content aliases the live fieldsets, and a fieldset that is itself named "data" would collide with it; neither is modelled.
- The control panel's popover, sliders, colour picker and transitions are presentational. Only the vector inputs' update guard is modelled.
- ListField.Entries: each entry carries its uid, order and item; the `remove` callback is described by `ShowRemove` and not copied into every entry.
- RecordingKey.MakeRecordingKey: takes `id: int` and `audioKey: string` as plain values. The record type it picks them from is not defined in the database schema shown. Negative ids are rendered with a minus sign, so `IdBeforeFirstDash` and `KeyInjective` are stated for non-negative ids only.
