# Quality-profile reconciliation for an *arr application

This project models, in Dafny, the reconciliation pass of
`ansible/scripts/configure-arr-quality.py`. The pass talks to the API of a
Sonarr/Radarr-style application and makes sure two resources exist:

- the custom format "Prefer x265". When it is missing, the pass creates it
  from a fixed body: name "Prefer x265", `includeCustomFormatWhenRenaming`
  false, and one `ReleaseTitleSpecification` rule named "x265/HEVC";
- the quality profile "4K Minimal". When it is missing, the pass derives it
  from the "Ultra-HD" profile and creates it.

The derived profile has no `id`, the name "4K Minimal", `upgradeAllowed`
true and `cutoff` 1003. Only the groups "WEB 1080p" and "WEB 2160p" are
allowed, and each group's direct sub-items get the group's flag. The
format-score table is replaced by one entry that scores "Prefer x265" 100.
The thresholds become 0, 0 and 1. Every other field of the template is
copied unchanged. The pass exits with 0 (nothing to do), 1 (an API call
failed, or the template is missing) or 2 (resources were created).

Modules:

- `Wrappers` (`wrappers.dfy`): `Option`.
- `ArrRecords` (`records.dfy`): the JSON records as datatypes. Optional keys
  are explicit: an item's `name` is an `Option`, and a missing `items` is an
  empty sequence. Keys the pass does not touch are kept in an `extra` map;
  `WellFormed` says that map repeats none of the modelled keys.
- `Lookup` (`lookup.dfy`): the `next(...)` and `any(...)` name lookups, as
  functions over sequences. The first exact match wins.
- `Derivation` (`derivation.dfy`): the derivation. `IsDerivation` states it
  field by field. `DeriveProfile` computes it as a value. `Derive` is the
  step-by-step rewrite the script performs, with its two loops.
- `ArrApi` (`api.dfy`): the API as an in-memory store. `ArrServer` is a class
  holding the two collections, the next id, a log of every request, and a
  set `down` of routes on which every call fails.
- `Reconcile` (`reconcile.dfy`): `Pass`, the whole run as a function of the
  store and the failing routes, and `Reconcile`, the run as the script
  performs it against an `ArrServer`, proved to behave as `Pass` says.
  `Reconcile` runs the custom-format half itself and hands the
  quality-profile half to `EnsureProfile`; that method and the function
  `ProfileStep` mirror the script's two commented sections.
- `PassProperties` (`properties.dfy`): what one run and two runs promise,
  stated about `Pass`.

A transport failure in the script ends the process with `sys.exit(1)`. In
the model, a call on a route in `down` returns `None` and `Reconcile` returns
1 at once. Each route is called at most once per run, so a fixed set of
failing routes covers every way a run can fail.

Line 70 sets `changed = True` when the pass creates "Prefer x265". However,
when "4K Minimal" already exists, line 79 calls `sys.exit(0)` whatever
`changed` holds. So a run that only creates the custom format exits 0, even
though the comment on line 117 says "exit 2 = changed (for Ansible)". The
model follows the code. `PassProperties.ProfileExists` states this case:
exit 0 after a format POST.

## Model

| member | source | states |
|---|---|---|
| `Lookup.FormatIndex` | ansible/scripts/configure-arr-quality.py:55 | the position of the first custom format with exactly the given name, or None exactly when no format has that name |
| `Lookup.FormatId` | ansible/scripts/configure-arr-quality.py:55 | None when no format has the name; otherwise the `id` of the first format with that name |
| `Lookup.ProfileIndex` | ansible/scripts/configure-arr-quality.py:82 | the position of the first profile with exactly the given name, or None exactly when no profile has that name |
| `Lookup.FindProfile` | ansible/scripts/configure-arr-quality.py:82 | the first profile with the given name; None exactly when no profile has that name |
| `Lookup.HasProfile` | ansible/scripts/configure-arr-quality.py:77 | true exactly when some profile has the given name |
| `Derivation.SetEachAllowed` | ansible/scripts/configure-arr-quality.py:98-99 | each sub-item gets the given allow-flag, and nothing else about it changes; count and order are kept |
| `Derivation.AllowListed` | ansible/scripts/configure-arr-quality.py:94-103 | every top-level item gets allowed = (it has a name in the allow-list), its direct sub-items get the same flag; names, other keys, count, order and deeper levels are kept |
| `Derivation.DeriveProfile` | ansible/scripts/configure-arr-quality.py:87-111 | the derived profile satisfies `IsDerivation`: no id, name "4K Minimal", upgrades allowed, cutoff 1003, the allow-flags as above, formatItems exactly one x265 entry of score 100, thresholds 0/0/1, other keys of the template kept; an item is allowed exactly when its name is "WEB 1080p" or "WEB 2160p", so an unnamed item is never allowed |
| `Derivation.DerivationUnique` | ansible/scripts/configure-arr-quality.py:87-111 | the field-by-field description leaves no freedom: two profiles that both satisfy it are equal |
| `Derivation.DerivedWellFormed` | ansible/scripts/configure-arr-quality.py:87 | a template whose `extra` keys are disjoint from the modelled keys gives a derived profile of the same kind, so after the `pop` there is no `id` at all, neither as a field nor as an extra key |
| `Derivation.SetAllowed` | ansible/scripts/configure-arr-quality.py:96-103 | the in-place update of one item: its flag and each direct sub-item's flag become the given value, nothing else changes |
| `Derivation.Derive` | ansible/scripts/configure-arr-quality.py:87-111 | the step-by-step rewrite of the template, with its loop over the items, yields exactly the described derivation |
| `ArrApi.Remote.WithFormat` | ansible/scripts/configure-arr-quality.py:58-69 | a created custom format is appended with an id that no stored record has, and the store stays well formed |
| `ArrApi.Remote.WithProfile` | ansible/scripts/configure-arr-quality.py:113 | a created profile is appended with an id that no stored record has, and the store stays well formed |
| `ArrApi.ArrServer.constructor` | ansible/scripts/configure-arr-quality.py:50 | a connection to a store with the given contents and failing routes, with an empty request log |
| `ArrApi.ArrServer.ListFormats` | ansible/scripts/configure-arr-quality.py:54 | GET /customformat is logged and returns the stored formats, or fails when that route is down |
| `ArrApi.ArrServer.CreateFormat` | ansible/scripts/configure-arr-quality.py:58-69 | POST /customformat is logged; it fails and changes nothing when that route is down, else it stores the body with a fresh id and returns that record |
| `ArrApi.ArrServer.ListProfiles` | ansible/scripts/configure-arr-quality.py:76 | GET /qualityprofile is logged and returns the stored profiles, or fails when that route is down |
| `ArrApi.ArrServer.CreateProfile` | ansible/scripts/configure-arr-quality.py:113 | POST /qualityprofile is logged; it fails and changes nothing when that route is down, else it stores the body with a fresh id |
| `Reconcile.ProfileStep` | ansible/scripts/configure-arr-quality.py:75-117 | the quality-profile half of `main` as a function; its own contract says only that it starts with the profile GET, leaves the custom formats alone, exits 0, 1 or 2 and keeps the store well formed; it is the function `EnsureProfile` is proved to follow, and the `PassProperties` lemmas describe it |
| `Reconcile.Pass` | ansible/scripts/configure-arr-quality.py:45-117 | the whole of `main` as a function of the store and the failing routes; its own contract says only that it starts with the format GET, exits 0, 1 or 2 and keeps the store well formed; it is the function `Reconcile` is proved to follow, and the `PassProperties` lemmas describe it |
| `Reconcile.Reconcile` | ansible/scripts/configure-arr-quality.py:45-117 | the run sends exactly the requests of `Pass`, leaves the store as `Pass` says and exits with its code |
| `Reconcile.EnsureProfile` | ansible/scripts/configure-arr-quality.py:75-117 | the quality-profile half of `main`, given the format id: it sends exactly the requests of `ProfileStep`, leaves the store as `ProfileStep` says and yields its exit code; it reports a created profile exactly when that code is 2 |
| `PassProperties.FormatReused` | ansible/scripts/configure-arr-quality.py:54-73 | with "Prefer x265" present, no custom format is posted, the formats are unchanged, any posted profile scores the first match's id, and exit 2 happens exactly when a profile was created |
| `PassProperties.FormatCreated` | ansible/scripts/configure-arr-quality.py:57-70 | with "Prefer x265" absent, the second request and the only custom-format POST is the fixed body; if it fails the run ends there with 1, else the format is stored with the new id and any posted profile scores that id |
| `PassProperties.ProfileExists` | ansible/scripts/configure-arr-quality.py:76-79 | with "4K Minimal" present the run exits 0 after the profile GET, posts no profile and leaves the profiles alone, even when it has just created the format |
| `PassProperties.MissingTemplate` | ansible/scripts/configure-arr-quality.py:82-85 | without "4K Minimal" and "Ultra-HD" the run exits 1 after the profile GET and posts no profile |
| `PassProperties.FailureIsFinal` | ansible/scripts/configure-arr-quality.py:39-41 | the first request is the format GET; a failing call is the last request of the run and the run exits 1; exit 1 means a failing call or a missing template |
| `PassProperties.ProfileCreated` | ansible/scripts/configure-arr-quality.py:113-117 | with the template found and no failure, the last request is the only profile POST, its body is the derivation of the first "Ultra-HD" with the format id in use, it is appended with id `nextId`, and the run exits 2; on a well-formed store that id is one no earlier profile has, and the store stays well formed |
| `PassProperties.ExitCodes` | ansible/scripts/configure-arr-quality.py:79-117 | the exit code is 0, 1 or 2; 0 means "4K Minimal" was already there and the profiles are untouched; 2 means exactly one profile, "4K Minimal", was added and it was absent before |
| `PassProperties.FormatFoundAfter` | ansible/scripts/configure-arr-quality.py:55-70 | after a successful run on a well-formed store, "Prefer x265" is found with an id |
| `PassProperties.ProfileFoundAfter` | ansible/scripts/configure-arr-quality.py:76-114 | after a successful run "4K Minimal" is among the profiles |
| `PassProperties.Idempotent` | ansible/scripts/configure-arr-quality.py:10 | a run after a successful run posts nothing and changes nothing, and, when its GETs succeed, exits 0 after exactly the two GETs |
| `PassProperties.TemplateRunSucceeds` | ansible/scripts/configure-arr-quality.py:82-117 | with no failing call, a store holding "Ultra-HD" never makes the run exit 1 |
| `PassProperties.ConvergesFromTemplate` | ansible/scripts/configure-arr-quality.py:10 | after one run on a store holding "Ultra-HD", a second run exits 0 with only its two GETs and leaves the store as it was |
| `PassProperties.Example` | ansible/scripts/configure-arr-quality.py:45-117 | on an empty format list and a lone "Ultra-HD", the run creates the format and a "4K Minimal" that allows both WEB groups and their sub-items, disallows "Other", scores the new format id, and exits 2 |

## Left out

- The transport: building the `docker exec … curl` command, its headers, the URL and the API key, and running it (lines 19-38). The in-memory `ArrServer` stands in for it.
- JSON encoding and decoding, including an empty response read as `None` (line 42).
- A fetched record that lacks a key the script indexes (`name`, `id`, `items`), an item whose `items` is `null`, and a create call that returns no body. The script would crash on these. The record types rule out a missing `name` or `items` and a missing create response. They do not rule out a missing `id`: `id` is an `Option`, and `Lookup.FormatId` reads a format without an id as not found. What keeps records without an id out of the store is `Remote.Valid`, which `Reconcile` requires.
- Records whose `extra` map repeats a key that the datatype has a field for. `Item.WellFormed` and `Profile.WellFormed` exclude them; only `Derivation.DerivedWellFormed` uses that rule, and the store does not require it.
- How the server validates a POST body, and what it adds to it. The model stores the body as sent, with a fresh id taken from one counter shared by both collections. A failed POST leaves the store unchanged.
- Reading the container, port and API key from `sys.argv` (lines 46-48).
- All diagnostic output (lines 40, 71, 73, 78, 84, 115).
- The meaning of the regular expression `[xh]\.?265|HEVC`. The pass only sends it to the server as text (line 66).
- Two runs at the same time racing to create duplicates. The script does no synchronisation, and the model covers sequential runs only.
