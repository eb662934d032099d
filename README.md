# ZeroHunger donation reservation engine, in Dafny

ZeroHunger connects food donors with volunteers who collect and deliver what
is left over. This project models the core of its Laravel API and of the
web client's helpers that encode the same protocol, and proves properties of
that model.

**The API.** A donor lists a donation. A volunteer claims it, which reserves
the donation under a six-digit pickup code and inserts one `active` claim.
The volunteer then marks the claim picked up (with the code), delivered, or
cancelled. The store holds:
- the `donations` table;
- the `claims` table, with its unique index on `donation_id`;
- the users' impact scores;
- the queue of `ProcessImpactScore` jobs;
- the notifications sent.

`Api.Backend` is a class over that store. Each endpoint is one method that
runs as a single atomic step, and its contract states every reply and the
complete new state. The store invariant `Api.Backend.Valid` holds that:
- every claim points to a reserved donation;
- a donation has at most one claim row for its whole life;
- available donations carry no code and reserved ones a six-digit code;
- every row fits its DECIMAL columns.

Request values reach a controller through the framework's default global
middleware, `TrimStrings` and `ConvertEmptyStringsToNull`: strings are trimmed
and a blank one becomes null (`Requests.Prepare`). The endpoints take the
request as sent and validate what the middleware made of it. The
application's middleware configuration is not part of this model; the
framework's default list is assumed.

A JSON string in a request keeps its text, together with what the `numeric`
rule and the date parser read in it (`Requests.Input`). The `string` rules
judge the text alone. So the six-digit code a claim issued, a title such as
"1984" or notes such as "5" pass the same checks as any other string. Only
the `numeric` and `date` rules use the readings.

Also on the API side:
- the exception handler's mapping from exceptions to HTTP responses;
- the visibility rule of `DonationResource`;
- the impact-score arithmetic.

**The web client.** The rest of the model covers:
- the zod validators for claims and donations;
- the status predicates and the normalisation of claim and donation status;
- the formatters;
- how `ClaimCard` derives the pickup code and which actions it offers;
- the aggregations of the three dashboards;
- the state machine of the `useGeolocation` hook;
- the route guard in `middleware.ts`;
- breadcrumbs, active-menu matching, the mobile menu sheet and the user's initials.

**Numbers.** Values are scaled integers:
- quantities are in hundredths of a kilogram, which is what DECIMAL(8,2) holds;
- coordinates are in 1e-7 degrees, which is what DECIMAL(10,7) holds;
- instants are integers (milliseconds on the client).

So `ceil(quantity × multiplier)` becomes an integer ceiling division by 100.

The files follow the source files: `api.dfy`, `requests.dfy`,
`donations_table.dfy`, `claims_table.dfy`, `impact_score.dfy`,
`exception_handler.dfy`, `donation_resource.dfy`, `claim_validators.dfy`,
`claim_types.dfy`, `donation_types.dfy`, `donation_validator.dfy`,
`claim_card.dfy`, `formatters.dfy`, `dashboards.dfy` (shared by the three
dashboards), `donor_dashboard.dfy`, `volunteer_dashboard.dfy`,
`recipient_dashboard.dfy`, `geolocation.dfy`, `middleware.dfy`, `navbar.dfy`,
`navigation.dfy` (Sidebar and MobileNav) and `user_nav.dfy`. `wrappers.dfy`,
`text.dfy` and `sorting.dfy` model the JavaScript and PHP built-ins the others
use: `??`, `trim`, `split`, `toUpperCase`, `slice`, `padStart` and
newest-first ordering.

**Two choices between conflicting sources:**
- **Cancelling leaves the donation reserved.** The doc comment at
  `src/types/claim.ts:17` says a cancelled claim makes the donation available
  again. No controller writes the donation after the claim, so cancelling
  leaves it reserved. The unique index would make any re-claim fail anyway.
  The model follows the controllers.
- **The "/" menu entry.** `isActivePath` with the href "/" is also true on
  paths that begin with "//". The model keeps that, as the code does
  (`Navigation.RootHref`).

## Model

| member | source | states |
|---|---|---|
| Api.StatusCode | zerohunger-api/app/Exceptions/Handler.php:47-67 | a failed validation is answered 422, the claim endpoint's catch block 500 and a granted claim 200; an unknown id in the URL is answered 404 by the corrected mapping, where the handler as written answers 500 |
| Api.Latest | zerohunger-api/app/Http/Controllers/Api/DonationController.php:31 | a listing holds exactly the rows that pass its filter, each once, ordered by creation time, newest first |
| Api.AvailableIsUnclaimed | zerohunger-api/app/Http/Controllers/Api/DonationController.php:107-124 | under the store invariant an available donation has no claim row, so no volunteer has claimed it and the same-volunteer check cannot fire |
| Api.ReserveKeepsConsistent | zerohunger-api/app/Http/Controllers/Api/DonationController.php:127-140 | reserving an available, unclaimed donation under a six-digit code and inserting its claim keeps the store invariant, and no donation that had left `available` changes status or code |
| Api.ClaimRowKeepsConsistent | zerohunger-api/app/Http/Controllers/Api/ClaimController.php:59-98 | rewriting a claim row without moving it to another donation keeps the store invariant |
| Api.InsertDonationKeepsConsistent | zerohunger-api/app/Http/Controllers/Api/DonationController.php:67-76 | inserting a fresh available row that fits its columns keeps the store invariant |
| Api.AcceptedRowFits | zerohunger-api/app/Http/Controllers/Api/DonationController.php:58-76 | a store request that validates carries a string title and numeric quantity and coordinates, and the row it inserts fits the DECIMAL columns and starts available with no code |
| Api.OptionalText | zerohunger-api/app/Http/Controllers/Api/DonationController.php:70 | `?? null` on a nullable string: present exactly when a string was sent, and then that string |
| Api.OptionalDate | zerohunger-api/app/Http/Controllers/Api/DonationController.php:74 | `?? null` on a nullable date: present exactly when a string the date parser reads was sent, and then that instant |
| Api.IssuedCodeAccepted | zerohunger-api/app/Http/Controllers/Api/ClaimController.php:47-52 | a code the claim issued (six ASCII digits), sent back as a string, passes `required\|string\|size:6` after the middleware and compares equal to the stored code, whatever it reads as a number |
| Api.ApplyUpdate | zerohunger-api/app/Http/Controllers/Api/DonationController.php:208 | an update changes title, description, quantity_kg and expires_at only when that key was sent, and never the owner, status, codes, location or `created_at`; `updated_at` keeps its old value (see Left out) |
| Api.ValidateStore | zerohunger-api/app/Http/Controllers/Api/DonationController.php:58-76 | a store request as sent is rejected exactly when its prepared fields break a rule, with those keys; accepted, it yields the new row built from the prepared values, which fits its columns and starts available |
| Api.ValidateUpdate | zerohunger-api/app/Http/Controllers/Api/DonationController.php:201-208 | an update as sent is rejected exactly when its prepared fields break a rule, with those keys; accepted, it yields the donation with the sent columns changed, still fitting its columns |
| Api.UpdateKeepsConsistent | zerohunger-api/app/Http/Controllers/Api/DonationController.php:208 | replacing an available donation by a row that fits and stays available keeps the store invariant |
| Api.Backend.Index | zerohunger-api/app/Http/Controllers/Api/DonationController.php:19-34 | the public listing is exactly the available donations with no expiry or an expiry after now, each once, newest first |
| Api.Backend.MyDonations | zerohunger-api/app/Http/Controllers/Api/DonationController.php:172-180 | a donor's listing is exactly that donor's donations, each once, newest first |
| Api.Backend.ClaimIndex | zerohunger-api/app/Http/Controllers/Api/ClaimController.php:17-25 | a volunteer's listing is exactly that volunteer's claims, each once, newest first |
| Api.Backend.StoreDonation | zerohunger-api/app/Http/Controllers/Api/DonationController.php:49-83 | a non-donor gets 403 with nothing changed; the body, as the middleware prepared it, either fails validation (422 with its error keys, nothing changed) or gives exactly one new available row without a code under the next id, answered 201, with the invariant kept |
| Api.Backend.Insert | zerohunger-api/app/Http/Controllers/Api/DonationController.php:67-76 | the write of an accepted store request: the row under the next id, nothing else changed, the invariant kept |
| Api.Backend.ClaimDonation | zerohunger-api/app/Http/Controllers/Api/DonationController.php:88-167 | an unknown id gives `Missing`, which the corrected exception mapping answers 404 (the handler as written answers 500, see Findings), a non-volunteer 403 and a donation that is not available 409, all with nothing changed. A failure inside the transaction gives 500, detail only in debug mode, and nothing changes. Otherwise the donation becomes reserved under the code returned and exactly one active claim by this volunteer is added. Only after the commit are the donor's notification and the 'claim' score job queued. A throw after the commit gives 500 and keeps the claim, along with whatever ran before it: nothing when `notify` throws, the notice when the dispatch throws, the notice and the job when the response throws |
| Api.Backend.Reserve | zerohunger-api/app/Http/Controllers/Api/DonationController.php:127-142 | the writes of a successful claim transaction: the donation reserved with its code, one claim row inserted under the next id, nothing else changed, the invariant kept |
| Api.Backend.UpdateDonation | zerohunger-api/app/Http/Controllers/Api/DonationController.php:185-212 | an unknown id gives `Missing`, which the corrected exception mapping answers 404 (the handler as written answers 500, see Findings), a non-owner 403 and a donation that is not available 409. Invalid fields of the prepared body give 422 with their keys. Each of these changes nothing. Otherwise only the donation's editable columns change, as `ApplyUpdate` states, and the reply is 200 |
| Api.Backend.Rewrite | zerohunger-api/app/Http/Controllers/Api/DonationController.php:208 | the write of an accepted update: only that donation's row replaced, still available, the invariant kept |
| Api.Backend.DestroyDonation | zerohunger-api/app/Http/Controllers/Api/DonationController.php:217-238 | an unknown id gives `Missing`, which the corrected exception mapping answers 404 (the handler as written answers 500, see Findings), a non-owner 403 and a donation that is not available 409, all with nothing changed; otherwise exactly that donation is removed, no claim goes with it, and the reply is 200 |
| Api.Backend.MarkPickedUp | zerohunger-api/app/Http/Controllers/Api/ClaimController.php:30-66 | checks run in order: ownership (403), then status `active` (409), then a six-character string once the middleware has trimmed it, whatever it reads as a number (422 keyed `pickup_code`), then equality with the donation's code (422 "Invalid pickup code"). An unknown claim id gives `Missing` (404 by the corrected mapping, 500 as written). A refusal changes nothing and may be retried any number of times. The exact code moves only this claim to `picked_up` with its time, and no donation is touched |
| Api.Backend.MarkDelivered | zerohunger-api/app/Http/Controllers/Api/ClaimController.php:71-123 | an unknown claim id gives `Missing`; then checks run in order: ownership (403), then status `picked_up` (409), then notes of at most 500 characters (422). Otherwise the claim becomes delivered, keeping its old notes unless non-blank notes were sent, which are stored trimmed. One notice goes to the donor, and exactly two score jobs are queued: 'delivery' for the volunteer and 'donation' for the donor. No donation is touched |
| Api.Backend.CancelClaim | zerohunger-api/app/Http/Controllers/Api/ClaimController.php:128-149 | an unknown claim id gives `Missing`; then ownership (403); only an `active` or `picked_up` claim can be cancelled (409 otherwise); cancelling changes only that claim's status, and the donation stays as it is |
| Api.Backend.RunNextJob | zerohunger-api/app/Jobs/ProcessImpactScore.php:25-31 | running the oldest queued job raises that user's score by exactly the job's points and changes nothing else |
| Api.SecondClaimFails | zerohunger-api/app/Http/Controllers/Api/DonationController.php:107-112 | of two claims on one available donation the first is granted and keeps its code; the second is answered 409 "This donation is no longer available" |
| Requests.StoreErrors | zerohunger-api/app/Http/Controllers/Api/DonationController.php:58-65 | each field's key is in the error bag exactly when that field breaks its rule (required, numeric ranges, string length, `after:now`); a blank string is skipped by every rule but `required`; `string` and its length judge the text, `numeric` and `date` the readings |
| Requests.NumberOf | zerohunger-api/app/Http/Controllers/Api/DonationController.php:61-63 | the number a value that passes `numeric` stands for: the JSON number itself, or the string's numeric reading |
| Requests.StringRulesIgnoreReadings | zerohunger-api/app/Http/Controllers/Api/DonationController.php:58-65 | the title, description, code and notes rules accept a string on its text and length alone, whatever it reads as a number or a date |
| Requests.NumericTitleStored | zerohunger-api/app/Http/Controllers/Api/DonationController.php:58-65 | a store request with the title "1984" validates, whatever it reads as a number |
| Requests.DateTitleUpdated | zerohunger-api/app/Http/Controllers/Api/DonationController.php:201-206 | an update with the title "2025-01-01" validates, whatever it reads as a date |
| Requests.NumericNotesAndCode | zerohunger-api/app/Http/Controllers/Api/ClaimController.php:47-90 | the notes "5" and the code "123456" pass their rules |
| Requests.StoreAcceptsOnlyInRange | zerohunger-api/app/Http/Controllers/Api/DonationController.php:58-65 | an accepted store request has a non-blank title of at most 255 characters, quantity in [0.1, 1000] kg, latitude in [-90, 90], longitude in [-180, 180], and no expiry, a blank one, or one strictly after now |
| Requests.UpdateErrors | zerohunger-api/app/Http/Controllers/Api/DonationController.php:201-206 | under `sometimes` a field is checked only when present, and a blank string is skipped; its key is in the bag exactly when a present value breaks its rule; a title is judged on its text, whatever it reads as a number or a date |
| Requests.BlankTitle | zerohunger-api/app/Http/Controllers/Api/DonationController.php:201-206 | a title of spaces is refused by store through `required`, and by update too, because the middleware made it null and `string` fails on null; the blank string itself would be skipped; an empty update validates |
| Requests.Prepare | zerohunger-api/app/Http/Controllers/Api/DonationController.php:58-65 | the global middleware trims every string and turns a blank one into null: a prepared string is never blank and has nothing to trim; other values pass unchanged |
| Requests.PrepareIdempotent | zerohunger-api/app/Http/Controllers/Api/DonationController.php:58-65 | preparing a prepared request changes nothing |
| Requests.PreparedSkip | zerohunger-api/app/Http/Controllers/Api/DonationController.php:58-65 | on prepared values a skip means absent, or null under `nullable` |
| Requests.BlankExpiryAccepted | zerohunger-api/app/Http/Controllers/Api/DonationController.php:201-206 | a blank `expires_at` reaches the controller as null and is no error, which a blank string given straight to the validator would not be either |
| DonationsTable.ParseStatus | zerohunger-api/database/migrations/2025_12_09_193829_create_donations_table.php:20-27 | the status column accepts only its six labels, and a parsed label names its status |
| DonationsTable.ParseStatusName | zerohunger-api/database/migrations/2025_12_09_193829_create_donations_table.php:20-27 | each status's label parses back to that status |
| DonationsTable.NewRow | zerohunger-api/database/migrations/2025_12_09_193829_create_donations_table.php:27-33 | a new row takes the defaults: status available, no pickup or delivery code, both timestamps now |
| DonationsTable.CascadeDeleteDonor | zerohunger-api/database/migrations/2025_12_09_193829_create_donations_table.php:16 | deleting a user removes exactly that user's donations and leaves all other rows as they were |
| ClaimsTable.ParseStatus | zerohunger-api/database/migrations/2025_12_09_193835_create_claims_table.php:18-23 | the claim status column accepts only its four labels, and a parsed label names its status |
| ClaimsTable.ParseStatusName | zerohunger-api/database/migrations/2025_12_09_193835_create_claims_table.php:18-23 | each claim status's label parses back to that status |
| ClaimsTable.NewRow | zerohunger-api/database/migrations/2025_12_09_193835_create_claims_table.php:23-26 | a new claim is active, for the given donation and volunteer, with no pickup time, delivery time or notes |
| ClaimsTable.InsertKeepsUnique | zerohunger-api/database/migrations/2025_12_09_193835_create_claims_table.php:35 | inserting a row for a donation that has none keeps `donation_id` unique |
| ClaimsTable.CascadeDelete | zerohunger-api/database/migrations/2025_12_09_193835_create_claims_table.php:16-17 | a claim row survives exactly when its donation survives and its volunteer was not deleted, unchanged |
| ImpactScore.Multiplier | zerohunger-api/app/Jobs/ProcessImpactScore.php:28 | the multiplier is 2 exactly for 'delivery' and 1 for every other action |
| ImpactScore.CeilDiv100 | zerohunger-api/app/Jobs/ProcessImpactScore.php:29 | the least n with 100·n ≥ x: `ceil` on hundredths |
| ImpactScore.Points | zerohunger-api/app/Jobs/ProcessImpactScore.php:29 | points are ceil(kg × multiplier): 100·p ≥ q·m and 100·p < q·m + 100 |
| ImpactScore.PositiveQuantityEarnsPoint | zerohunger-api/app/Jobs/ProcessImpactScore.php:29 | any positive quantity earns at least one point |
| ImpactScore.PointsMonotone | zerohunger-api/app/Jobs/ProcessImpactScore.php:29 | more food never earns fewer points for the same action |
| ImpactScore.ScenarioPoints | zerohunger-api/app/Jobs/ProcessImpactScore.php:28-29 | 10.5 kg earns 21 points for a delivery and 11 for a donation or a claim |
| ImpactScore.NewJob | zerohunger-api/app/Jobs/ProcessImpactScore.php:19-23 | a job without an action is a 'delivery' job; otherwise it keeps the action, user and quantity given |
| ExceptionHandler.HandleApiException | zerohunger-api/app/Exceptions/Handler.php:42-68 | the mapping as written: 401 "Unauthenticated", 422 with the errors map, 404 "Resource not found", an HTTP exception's own code and message, else 500 "Internal server error"; a 500 arises only from an exception without a status code or an HTTP 500, and every exception without `getStatusCode` other than the authentication and validation ones gives 500; the `error` detail is the message exactly in debug mode |
| ExceptionHandler.Render | zerohunger-api/app/Exceptions/Handler.php:29-37 | exactly the `api/*` paths get the JSON mapping; the rest go to the framework |
| ExceptionHandler.NoDetailWithoutDebug | zerohunger-api/app/Exceptions/Handler.php:66 | outside debug mode no response carries an exception's message |
| ExceptionHandler.UnknownIdAnswers500 | zerohunger-api/app/Exceptions/Handler.php:44-62 | a missing-model exception from route binding falls through the chain to 500 "Internal server error" |
| ExceptionHandler.Prepare | zerohunger-api/app/Exceptions/Handler.php:56-58 | the conversion of a missing model into a not-found HTTP exception keeps the message and leaves every other exception as it is |
| ExceptionHandler.HandleApiExceptionCorrected | zerohunger-api/app/Exceptions/Handler.php:42-68 | the same mapping with that conversion first: an unknown id is 404 "Resource not found", and every other exception maps exactly as written |
| DonationResource.ClaimVolunteer | zerohunger-api/app/Http/Resources/DonationResource.php:20 | `claim?->volunteer_id` is null exactly when the donation has no claim |
| DonationResource.ToArray | zerohunger-api/app/Http/Resources/DonationResource.php:10-39 | `pickup_code` appears exactly when the viewer's id strictly equals the donor's or the claim's volunteer's, and holds the column's value. `distance` appears only when it was computed. `donor` appears only when loaded. `claim` appears when loaded, or once the donor comparison failed and the relation was read. Status and id pass through |
| DonationResource.CodeVisibleToClaimant | zerohunger-api/app/Http/Resources/DonationResource.php:18-22 | the claim's volunteer sees the code; a third party on a claimed donation does not |
| DonationResource.AnonymousSeesUnclaimedCode | zerohunger-api/app/Http/Resources/DonationResource.php:19-20 | with no viewer and no claim, `null === null` makes the key appear, holding the column's (still null) value |
| DonationResource.StrangerNeverSeesCode | zerohunger-api/app/Http/Resources/DonationResource.php:18-22 | a signed-in viewer who is neither donor nor claimant never gets the key |
| ClaimValidators.ValidCodesAreServerCodes | src/lib/validators/claim.ts:89-91 | the client accepts a code exactly when it is six ASCII digits, which is what the server hands out |
| ClaimValidators.Digits | src/lib/validators/claim.ts:106 | removing non-digits leaves only digits and never lengthens the input |
| ClaimValidators.CleanPickupCode | src/lib/validators/claim.ts:105-107 | the cleaned code is all digits and at most six long |
| ClaimValidators.CleanIsDigitPrefix | src/lib/validators/claim.ts:105-107 | the cleaned code is the first min(6, number of digits) digits of the input, in order |
| ClaimValidators.CleanIdempotent | src/lib/validators/claim.ts:105-107 | cleaning twice is cleaning once |
| ClaimValidators.ValidCodeIsClean | src/lib/validators/claim.ts:89-107 | a valid code is its own cleaned form |
| ClaimValidators.FormatPickupCode | src/lib/validators/claim.ts:96-100 | up to three digits are shown as cleaned; longer codes as the first three, one space, then the rest |
| ClaimValidators.FormatThenRemoveSpace | src/lib/validators/claim.ts:96-107 | deleting the space from the display form gives back the cleaned code |
| ClaimValidators.WrongTypeMessage | src/lib/validators/claim.ts:24-25 | zod's message for a value that is not a string: "Expected string, received " and the received type |
| ClaimValidators.PickupCodeSchema | src/lib/validators/claim.ts:24-34 | the schema accepts exactly strings of six digits, returns them unchanged, and reports the length message for any other length |
| ClaimValidators.TrimOrAbsent | src/lib/validators/claim.ts:57 | `val?.trim() \|\| undefined`: blank becomes absent; otherwise the trimmed text |
| ClaimValidators.DeliveryNotesSchema | src/lib/validators/claim.ts:50-58 | notes are accepted exactly when at most 500 characters; missing notes stay absent; accepted notes are trimmed and never blank |
| ClaimValidators.CancelClaimSchema | src/lib/validators/claim.ts:69-78 | accepted exactly when the reason is missing or at most 250 characters and `confirmed` is literally true; a long reason reports its message first |
| ClaimTypes.TablesDistinguishStatuses | src/types/claim.ts:24-39 | every claim status has a label and a colour pair of its own, and the colours are Tailwind `bg-`/`text-` classes |
| ClaimTypes.PredicatesMatchServerStatuses | src/types/claim.ts:87-98 | on the server's statuses, active means `active` or `picked_up`, completed means `delivered`, and never both |
| ClaimTypes.OwnerNeedsBoth | src/types/claim.ts:103-106 | ownership needs a claim and a non-zero user id equal to its volunteer; a missing or zero id owns nothing |
| DonationTypes.StatusOfValue | src/types/donation.ts:26-33 | a string is found among the status values exactly when some status has it as value |
| DonationTypes.FoodTypeOfValue | src/types/donation.ts:66-75 | a string is found among the food-type values exactly when some food type has it as value |
| DonationTypes.StatusPredicates | src/types/donation.ts:149-181 | claimed implies in progress, in progress and complete exclude each other, and a missing donation satisfies none |
| DonationTypes.ReservedIsNotInProgress | src/types/donation.ts:149-171 | the server's `reserved` is neither claimed nor in progress, while "AVAILABLE" counts as available |
| DonationTypes.NormalizeDonationStatus | src/types/donation.ts:194-212 | the status whose value is the lower-cased input, and Pending when there is none |
| DonationTypes.NormalizeProperties | src/types/donation.ts:194-212 | normalising ignores case, maps each value to its own status, and normalising twice changes nothing |
| DonationTypes.ServerWordsNormalizeToPending | src/types/donation.ts:209-210 | the server's "available" and "reserved" become Pending; "Picked_Up" becomes PickedUp |
| DonationValidator.LengthIssues | src/lib/validators/donation.ts:5-13 | no message exactly when the length is within the bounds |
| DonationValidator.FoodTypeIssues | src/lib/validators/donation.ts:15-17 | no message exactly when the value is one of the eight food types |
| DonationValidator.QuantityIssues | src/lib/validators/donation.ts:20-23 | no message exactly when the coerced number is in (0, 1000] |
| DonationValidator.CoordinateIssues | src/lib/validators/donation.ts:30-40 | no message exactly when the coerced number is within the bound and not 0 |
| DonationValidator.ExpiryIssues | src/lib/validators/donation.ts:42-46 | no message exactly when the date is valid and strictly after now |
| DonationValidator.ChecksPassIff | src/lib/validators/donation.ts:4-47 | a field's checks produce no message exactly when the field meets its own constraint |
| DonationValidator.FailingFields | src/lib/validators/donation.ts:4-47 | an issue is reported against a field exactly when that field breaks its constraint |
| DonationValidator.ValidateAcceptsIff | src/lib/validators/donation.ts:4-47 | the form is accepted exactly when every field meets its constraint |
| DonationValidator.QuantityBoundsDiffer | src/lib/validators/donation.ts:20-23 | the form accepts 0.05 kg, which the API's `min:0.1` rejects |
| DonationValidator.AcceptedLatitudeFitsApi | src/lib/validators/donation.ts:30-34 | a latitude the form accepts passes the API's `between:-90,90` |
| ClaimCard.MapClaimStatusToDonationStatus | front-end/src/components/claims/ClaimCard.tsx:54-67 | active ↔ Claimed, picked_up ↔ PickedUp, delivered ↔ Delivered, cancelled ↔ Cancelled, anything else Pending |
| ClaimCard.MapAgreesWithServer | front-end/src/components/claims/ClaimCard.tsx:54-67 | no server claim status maps to Pending, and every one but `active` maps to the donation status of the same name |
| ClaimCard.BadgeStatus | front-end/src/components/claims/ClaimCard.tsx:73 | the donation's status when present, otherwise the mapped claim status |
| ClaimCard.StatusClass | front-end/src/components/claims/ClaimCard.tsx:72 | the fallback accent exactly for a status outside the four |
| ClaimCard.AccentsDistinguishStatuses | front-end/src/components/claims/ClaimCard.tsx:42-47 | the four statuses get four different accents |
| ClaimCard.CodeCandidate | front-end/src/components/claims/ClaimCard.tsx:89-97 | the first present value of the embedded claim's code, the donation's code and the claim id, in that order |
| ClaimCard.PickupCode | front-end/src/components/claims/ClaimCard.tsx:99 | the displayed code is always six characters |
| ClaimCard.PickupCodeOfCandidate | front-end/src/components/claims/ClaimCard.tsx:99 | a candidate of six characters or more shows its last six; a shorter one is left-padded with zeros |
| ClaimCard.IssuedCodeShownAsIs | front-end/src/components/claims/ClaimCard.tsx:89-99 | a six-digit code from the server is shown exactly as issued |
| ClaimCard.OfferedActions | front-end/src/components/claims/ClaimCard.tsx:230-257 | Verify Pickup and Cancel exactly for `active`, Confirm Delivery exactly for `picked_up` |
| ClaimCard.ActionsWithinServerGuards | front-end/src/components/claims/ClaimCard.tsx:198-257 | every button leads to a transition the server accepts from that status; a picked-up claim is offered no Cancel the server would take; buttons appear exactly where the code is shown |
| Formatters.Dashed | front-end/src/lib/utils/formatters.ts:179 | replacing `_` and `-` keeps the length |
| Formatters.CapitalizeWords | front-end/src/lib/utils/formatters.ts:180 | exactly the word-initial characters are upper-cased, all others kept |
| Formatters.ToTitleCase | front-end/src/lib/utils/formatters.ts:177-181 | title case keeps the length |
| Formatters.TitleCaseCharacters | front-end/src/lib/utils/formatters.ts:177-181 | `_` and `-` become spaces, word-initial characters are upper-cased, every other character is kept, and no `_` or `-` remains |
| Formatters.TitleCaseIdempotent | front-end/src/lib/utils/formatters.ts:177-181 | title-casing twice is title-casing once |
| Formatters.TitleCaseExamples | front-end/src/lib/utils/formatters.ts:174-175 | "cooked_meal" gives "Cooked Meal" and "picked-up" gives "Picked Up" |
| Formatters.Truncate | front-end/src/lib/utils/formatters.ts:189-192 | text within the limit is unchanged; with a limit of at least 3 a longer text becomes its first limit − 3 characters and "...", exactly limit long; any cut text ends in "..." |
| Formatters.TruncateExamples | front-end/src/lib/utils/formatters.ts:187-192 | the documented example gives "Very lo...", not "Very long..."; a limit of 2 on "abcdef" gives "abcde...", longer than the text |
| Formatters.NormalizedIsLower | front-end/src/lib/utils/formatters.ts:99 | a lower-cased, trimmed key holds no capital letter |
| Formatters.ObjectLookup | front-end/src/lib/utils/formatters.ts:100 | indexing an object literal finds its own entry, else an inherited member for the two lower-case names of `Object.prototype`, else undefined |
| Formatters.LabelOrTitle | front-end/src/lib/utils/formatters.ts:100 | `??` keeps an own label or an inherited member, and title-cases the key only on undefined |
| Formatters.ClaimStatusOfKeyAsWritten | front-end/src/lib/utils/formatters.ts:86-100 | as written, the table lookup returns an inherited member exactly for an inherited name, else the own-key result |
| Formatters.FormatClaimStatusAsWritten | front-end/src/lib/utils/formatters.ts:96-101 | as written: "Unknown" for a falsy status; an inherited member exactly when the normalised status is an inherited name |
| Formatters.ClaimStatusReachesPrototype | front-end/src/lib/utils/formatters.ts:96-101 | as written, "constructor" yields `Object` itself instead of a label |
| Formatters.FormatClaimStatus | front-end/src/lib/utils/formatters.ts:96-101 | "Unknown" for a falsy status, the table's label for a known normalised status, title case otherwise |
| Formatters.ClaimStatusAgreesOffPrototype | front-end/src/lib/utils/formatters.ts:96-101 | off the two inherited names, the written and corrected formatters give the same label |
| Formatters.ClaimStatusIgnoresCase | front-end/src/lib/utils/formatters.ts:99 | an upper-cased status gets the same label |
| Formatters.ClaimStatusLabels | front-end/src/lib/utils/formatters.ts:86-100 | "picked_up" is shown "Picked Up" |
| Formatters.ClaimStatusOfInheritedName | front-end/src/lib/utils/formatters.ts:100 | the corrected formatter shows "constructor" as "Constructor" |
| Formatters.RoleOfKeyAsWritten | front-end/src/lib/utils/formatters.ts:107-121 | as written, the role lookup returns an inherited member exactly for an inherited name |
| Formatters.FormatUserRoleAsWritten | front-end/src/lib/utils/formatters.ts:117-122 | as written: "User" for a falsy role; an inherited member exactly for an inherited name |
| Formatters.UserRoleReachesPrototype | front-end/src/lib/utils/formatters.ts:117-122 | as written, the role "constructor" yields `Object` itself |
| Formatters.FormatUserRole | front-end/src/lib/utils/formatters.ts:117-122 | "User" for a falsy role, the table's label for a known role, title case otherwise |
| Formatters.UserRoleAgreesOffPrototype | front-end/src/lib/utils/formatters.ts:117-122 | off the two inherited names, the written and corrected role formatters agree |
| Formatters.UserRoleLabels | front-end/src/lib/utils/formatters.ts:111 | "admin" is shown "Administrator" |
| Formatters.FoodTypeOfKey | front-end/src/lib/utils/formatters.ts:41 | an own key of the `FoodType` object is a member name, which starts with a capital |
| Formatters.FoodTypeOfKeyAsWritten | front-end/src/lib/utils/formatters.ts:41-53 | as written, the `in` test passes an inherited name through to the label table, which yields the inherited member |
| Formatters.OwnKeyBranchIsDead | front-end/src/lib/utils/formatters.ts:41-44 | no normalised value is an own key of `FoodType`, so the first branch only ever serves inherited names |
| Formatters.FormatFoodTypeAsWritten | front-end/src/lib/utils/formatters.ts:34-54 | as written: "Food" for a falsy value; an inherited member exactly when the normalised value is an inherited name |
| Formatters.FoodTypeReachesPrototype | front-end/src/lib/utils/formatters.ts:41-43 | as written, "constructor" yields `Object` itself |
| Formatters.FormatFoodType | front-end/src/lib/utils/formatters.ts:34-54 | "Food" for a falsy value, the label of a known value, title case otherwise |
| Formatters.FoodTypeAgreesOffPrototype | front-end/src/lib/utils/formatters.ts:34-54 | off the two inherited names, the written and corrected food-type formatters agree |
| Formatters.FoodTypeLabels | front-end/src/lib/utils/formatters.ts:46-49 | every food type's value is shown with that type's label |
| Formatters.FoodValueIsNormal | front-end/src/lib/utils/formatters.ts:38 | every food-type value is already normalised |
| Formatters.FoodTypeIgnoresCase | front-end/src/lib/utils/formatters.ts:28-38 | an upper-cased value gets the same label |
| Formatters.FormatDonationStatus | front-end/src/lib/utils/formatters.ts:67-80 | "Unknown" for a falsy status, the label of a known status value, title case otherwise |
| Formatters.DonationStatusLabels | front-end/src/lib/utils/formatters.ts:64 | "pending" is shown "Available" |
| Formatters.ReservedGetsTitleCase | front-end/src/lib/utils/formatters.ts:73-79 | the server's "reserved" is no client status and is shown "Reserved" |
| Dashboards.SafeArrayExtract | front-end/src/components/dashboard/donor/DonorDashboard.tsx:44-70 | an array is itself; when the result is not empty, it was an array under `data` or `data.data` |
| Dashboards.ExtractUnwraps | front-end/src/components/dashboard/volunteer/VolunteerDashboard.tsx:37-63 | a list in zero, one or two `{data: …}` envelopes is found; in three or more the result is empty |
| Dashboards.Filter | front-end/src/components/dashboard/donor/DonorDashboard.tsx:107-115 | a filter keeps exactly the elements that pass and is never longer than its input |
| Dashboards.FilterAppend | front-end/src/components/dashboard/recipient/RecipientDashboard.tsx:80-82 | filtering distributes over concatenation, so order is kept |
| Dashboards.FilterHead | front-end/src/components/dashboard/volunteer/VolunteerDashboard.tsx:94 | the head of a filtered list is the first element of the input that passes |
| Dashboards.FilterDisjoint | front-end/src/components/dashboard/volunteer/VolunteerDashboard.tsx:75-80 | two filters by exclusive predicates together keep no more than the list |
| Dashboards.QuantityOf | front-end/src/components/dashboard/recipient/RecipientDashboard.tsx:90 | `quantity_kg`, else `quantity`, else 0 |
| Dashboards.GetDay | front-end/src/components/dashboard/volunteer/VolunteerDashboard.tsx:120 | `getDay()` is a weekday index in 0..6 |
| Dashboards.EpochWasThursday | front-end/src/components/dashboard/volunteer/VolunteerDashboard.tsx:120 | instant 0 in UTC is a Thursday |
| Dashboards.NextDay | front-end/src/components/dashboard/volunteer/VolunteerDashboard.tsx:120 | one day later is the next weekday |
| Dashboards.ChartDay | front-end/src/components/dashboard/volunteer/VolunteerDashboard.tsx:125-133 | the chart's positions map to weekday indices in 0..6 |
| Dashboards.WeekOrderFollowsDayNames | front-end/src/components/dashboard/volunteer/VolunteerDashboard.tsx:116-133 | the chart's i-th day, Monday first, names the bucket `dayNames` gives that index |
| Dashboards.InWeekOrder | front-end/src/components/dashboard/volunteer/VolunteerDashboard.tsx:125-133 | seven entries, Mon..Sun, each holding its weekday's counter |
| Dashboards.TallyPartition | front-end/src/components/dashboard/recipient/RecipientDashboard.tsx:107-112 | each entry lands in exactly one of the seven buckets, so the buckets sum to the total |
| Dashboards.WeekTotalOfTally | front-end/src/components/dashboard/volunteer/VolunteerDashboard.tsx:190 | the chart of a day map adds up to everything filed in it |
| Sorting.SortDesc | front-end/src/components/dashboard/donor/DonorDashboard.tsx:129-130 | a permutation of the input in decreasing key order |
| DonorDashboard.StatusCountsPartition | front-end/src/components/dashboard/donor/DonorDashboard.tsx:107-115 | the three slices plus the donations in none of them make up the whole list |
| DonorDashboard.ComputeStatusData | front-end/src/components/dashboard/donor/DonorDashboard.tsx:106-122 | three entries Pending, Claimed, Delivered with their colours, summing to at most the number of donations |
| DonorDashboard.OneMoreDonation | front-end/src/components/dashboard/donor/DonorDashboard.tsx:107-115 | one more donation adds one to exactly the slice its status belongs to |
| DonorDashboard.Recent | front-end/src/components/dashboard/donor/DonorDashboard.tsx:129-131 | at most five donations, newest first |
| DonorDashboard.RecentKeepsNewest | front-end/src/components/dashboard/donor/DonorDashboard.tsx:129-131 | the recent ones come from the list, and every donation left out is no newer than any kept |
| DonorDashboard.TimeLabel | front-end/src/components/dashboard/donor/DonorDashboard.tsx:136-144 | under an hour is "Just now"; from one hour to a day, the whole hours followed by "h ago"; "Yesterday" exactly for one to two days; from two days on, the whole days followed by " days ago" |
| DonorDashboard.TimeLabelHours | front-end/src/components/dashboard/donor/DonorDashboard.tsx:142 | three hours is "3h ago" |
| DonorDashboard.TimeLabelDays | front-end/src/components/dashboard/donor/DonorDashboard.tsx:144 | three days is "3 days ago" |
| DonorDashboard.GenerateActivity | front-end/src/components/dashboard/donor/DonorDashboard.tsx:127-150 | one item per recent donation, in the same order, titled "Donated: …" with its time label |
| VolunteerDashboard.ComputeVolunteerStats | front-end/src/components/dashboard/volunteer/VolunteerDashboard.tsx:73-96 | active claims count `active` or `picked_up`, completed count `delivered`, together at most the list; the mission is the first active claim in list order, absent exactly when there is none |
| VolunteerDashboard.PendingPickups | front-end/src/components/dashboard/volunteer/VolunteerDashboard.tsx:215 | min(active claims, 2) |
| VolunteerDashboard.RecentDeliveries | front-end/src/components/dashboard/volunteer/VolunteerDashboard.tsx:106-110 | exactly the delivered claims with a delivery time no older than a week |
| VolunteerDashboard.RecentAreCompleted | front-end/src/components/dashboard/volunteer/VolunteerDashboard.tsx:106-110 | there are never more recent deliveries than completed ones |
| VolunteerDashboard.DeliveryEntries | front-end/src/components/dashboard/volunteer/VolunteerDashboard.tsx:118-122 | one weekday entry per recent delivery |
| VolunteerDashboard.DeliveriesCountOnce | front-end/src/components/dashboard/volunteer/VolunteerDashboard.tsx:118-122 | every recent delivery counts once |
| VolunteerDashboard.ComputeWeeklyData | front-end/src/components/dashboard/volunteer/VolunteerDashboard.tsx:101-134 | seven days Mon..Sun, each the count of recent deliveries on that weekday; the week's total is the number of recent deliveries, never above the completed ones |
| RecipientDashboard.ToItem | front-end/src/components/dashboard/recipient/RecipientDashboard.tsx:83-91 | the card keeps id and title, with "Local Donor", "Nearby" and the quantity fallbacks |
| RecipientDashboard.ComputeNearbyItems | front-end/src/components/dashboard/recipient/RecipientDashboard.tsx:79-92 | the first six open donations, in list order, as cards |
| RecipientDashboard.NearbyKeepsOrder | front-end/src/components/dashboard/recipient/RecipientDashboard.tsx:80-82 | an open donation with fewer than six open ones before it is shown, at the position of its rank among them |
| RecipientDashboard.Meals | front-end/src/components/dashboard/recipient/RecipientDashboard.tsx:110 | `Math.round(kg × 2.5)` on hundredths: the nearest whole number to q/40, halves up |
| RecipientDashboard.MealsExamples | front-end/src/components/dashboard/recipient/RecipientDashboard.tsx:110 | 1 kg is 3 meals, 10 kg 25, 0 kg none |
| RecipientDashboard.MealEntries | front-end/src/components/dashboard/recipient/RecipientDashboard.tsx:107-111 | one weekday entry of meals per donation |
| RecipientDashboard.ComputeMealsData | front-end/src/components/dashboard/recipient/RecipientDashboard.tsx:99-123 | seven days Mon..Sun, each the meals of the donations listed on that weekday; the week adds up to the meals of the whole list |
| Geolocation.ErrorMessage | src/hooks/useGeolocation.ts:341-352 | codes 1, 2 and 3 get their messages; exactly the other codes get the unknown-error message |
| Geolocation.TimeoutsReadTheSame | src/hooks/useGeolocation.ts:341-352 | a browser timeout reads like the hook's own timeout, and no other code does |
| Geolocation.Hook.constructor | src/hooks/useGeolocation.ts:125-132 | the fallback, default, no error, loading exactly when fetching automatically where supported |
| Geolocation.Hook.HandleSuccess | src/hooks/useGeolocation.ts:137-164 | when mounted: the reported position, not loading, no error, not default, success reported; after unmount nothing changes |
| Geolocation.Hook.HandleError | src/hooks/useGeolocation.ts:169-197 | when mounted: the fallback, not loading, default, with the code's or the given message reported; after unmount nothing changes |
| Geolocation.Hook.ForceTimeoutFallback | src/hooks/useGeolocation.ts:203-220 | when mounted: the fallback with the timeout message; after unmount nothing changes |
| Geolocation.Hook.FetchPosition | src/hooks/useGeolocation.ts:225-257 | without geolocation it fails at once; otherwise loading starts with no error and the coordinates kept; a request that throws fails at once |
| Geolocation.Hook.SetCoordinates | src/hooks/useGeolocation.ts:262-270 | the chosen position, not default, no error, loading untouched |
| Geolocation.Hook.ResetToDefault | src/hooks/useGeolocation.ts:275-283 | back to the fallback, default, no error, loading untouched |
| Geolocation.Hook.Mount | src/hooks/useGeolocation.ts:286-287 | the hook is mounted and its state unchanged |
| Geolocation.Hook.Unmount | src/hooks/useGeolocation.ts:313-314 | the hook is unmounted and its state unchanged |
| Geolocation.Hook.AfterMountFrame | src/hooks/useGeolocation.ts:291-310 | when mounted: with geolocation and auto-fetch, a fetch starts (loading, no error, coordinates kept) or, if the request throws, the fallback with its message; without geolocation, the unsupported state; with geolocation and no auto-fetch, nothing changes; after unmount nothing changes |
| Middleware.Decide | src/middleware.ts:11-30 | without a token every non-public path goes to /login; with a token the auth pages go to /dashboard; everything else passes; exactly one outcome |
| Middleware.RootAlwaysPasses | src/middleware.ts:5-29 | "/" passes with or without a token |
| Middleware.TokenNeverToLogin | src/middleware.ts:19-22 | a request with a token is never sent to /login |
| Middleware.TrailingSlashIsProtected | src/middleware.ts:8-9 | matching is exact: "/login/" is protected |
| Middleware.AuthRoutesArePublic | src/middleware.ts:5-6 | every auth page is public |
| Middleware.NoRedirectLoop | src/middleware.ts:19-27 | following a redirect with the same cookie lands on a page that passes |
| Navbar.Segments | front-end/src/components/layout/DashboardNavbar.tsx:14 | segments are non-empty and hold no slash |
| Navbar.Spaced | front-end/src/components/layout/DashboardNavbar.tsx:26 | replacing hyphens keeps the length and leaves no hyphen |
| Navbar.Trail | front-end/src/components/layout/DashboardNavbar.tsx:22-29 | one crumb per segment |
| Navbar.BuildBreadcrumbs | front-end/src/components/layout/DashboardNavbar.tsx:13-32 | the loop produces exactly the specified trail: the Dashboard crumb when the first segment is not "dashboard", then one crumb per segment |
| Navbar.TrailAt | front-end/src/components/layout/DashboardNavbar.tsx:24-28 | the i-th crumb carries the i-th segment's label and links to the first i + 1 segments |
| Navbar.HrefExtends | front-end/src/components/layout/DashboardNavbar.tsx:24 | each href extends the previous one by "/" and the next segment |
| Navbar.CumulativeIsJoin | front-end/src/components/layout/DashboardNavbar.tsx:22-24 | the href is "/" and the segments joined with "/" |
| Navbar.CrumbCount | front-end/src/components/layout/DashboardNavbar.tsx:18-29 | crumbs are as many as segments, plus one when the Dashboard crumb was added |
| Navbar.SegmentsAround | front-end/src/components/layout/DashboardNavbar.tsx:14 | a slash separates segments |
| Navbar.DoubledSlash | front-end/src/components/layout/DashboardNavbar.tsx:14 | a doubled slash changes no segment |
| Navbar.OuterSlashes | front-end/src/components/layout/DashboardNavbar.tsx:14 | leading and trailing slashes change no segment |
| Navbar.MessySlashes | front-end/src/components/layout/DashboardNavbar.tsx:14 | "//a//b/" gets the crumbs of "/a/b" |
| Navbar.DashboardAlone | front-end/src/components/layout/DashboardNavbar.tsx:18-29 | "/dashboard" gets exactly one crumb, linking to itself |
| Navigation.ActiveIff | front-end/src/components/layout/Sidebar.tsx:10-13 | active means equal, or longer with the href followed by a slash |
| Navigation.SiblingInactive | front-end/src/components/layout/Sidebar.tsx:10-13 | a sibling that shares the href only as text is not active |
| Navigation.ClaimsSibling | src/components/layout/MobileNav.tsx:14-17 | "/claimsx" does not light "/claims"; "/claims/7" does |
| Navigation.DeeperStaysActive | front-end/src/components/layout/Sidebar.tsx:12 | everything below an active page keeps its entry active |
| Navigation.RootHref | front-end/src/components/layout/Sidebar.tsx:10-13 | the "/" entry is active exactly on "/" and on paths starting "//" |
| Navigation.NestedEntriesBothActive | front-end/src/components/layout/Sidebar.tsx:36-37 | on "/donations/new" both "/donations" and "/donations/new" are active |
| Navigation.CurrentRole | front-end/src/components/layout/Sidebar.tsx:19 | the first role, or donor when there is none |
| Navigation.ItemsFor | front-end/src/components/layout/Sidebar.tsx:20 | the role's items, empty for a role without an entry |
| Navigation.Links | front-end/src/components/layout/Sidebar.tsx:36-45 | one link per item of the current role, highlighted exactly when its href is active |
| Navigation.NoRolesSeeDonorMenu | src/components/layout/MobileNav.tsx:24-25 | a user without roles sees the donor menu |
| Navigation.MobileSheet.constructor | src/components/layout/MobileNav.tsx:22 | the sheet starts closed |
| Navigation.MobileSheet.SetOpen | src/components/layout/MobileNav.tsx:28 | the sheet takes the state its controls ask for |
| Navigation.MobileSheet.Choose | src/components/layout/MobileNav.tsx:50 | choosing any entry closes the sheet |
| UserNav.FirstOr | src/components/layout/UserNav.tsx:21 | the first character of a part, or the fallback for an empty one |
| UserNav.GetInitials | src/components/layout/UserNav.tsx:17-22 | two characters, no lower-case ASCII letter, "ZH" for a missing or empty name |
| UserNav.InitialsOfParts | src/components/layout/UserNav.tsx:19-21 | the initials read the first two parts of the trimmed name split on spaces, whatever follows |
| UserNav.OneWord | src/components/layout/UserNav.tsx:19-21 | a single word gives its own initial and 'H' |
| UserNav.TwoWords | src/components/layout/UserNav.tsx:19-21 | two words separated by one space give both initials |
| UserNav.DoubleSpace | src/components/layout/UserNav.tsx:19-21 | two spaces leave an empty second part, so the second initial is 'H' |
| UserNav.SingleNameExample | src/components/layout/UserNav.tsx:20-21 | "ahmed" gives "AH" |
| UserNav.DoubleSpaceExample | src/components/layout/UserNav.tsx:19-21 | "a  b" gives "AH" |
| UserNav.BlankName | src/components/layout/UserNav.tsx:18-21 | a name of spaces is not falsy but trims to nothing, giving "ZH" |
| UserNav.DisplayName | src/components/layout/UserNav.tsx:27 | only a missing name becomes "ZeroHunger User"; an empty one is shown as is |
| UserNav.EmailLine | src/components/layout/UserNav.tsx:44 | the e-mail line appears exactly for a non-empty address |

## Left out

- **Row lock and transaction.** `lockForUpdate`, `beginTransaction` and `commit` are not modelled. Each request is one atomic method, so mutual exclusion becomes the sequential fact that once a donation is reserved every later claim fails.
- **Model methods with unseen bodies.** `Donation::generateCode`, `isExpired` and `isAvailable` are not part of this model. The generated code is a parameter of six ASCII digits: that is the column's width and the client's format. `isExpired` and `isAvailable` are inputs of `DonationResource.ToArray`.
- **Claim model methods.** `markAsPickedUp`, `markAsDelivered` and `cancel` are also not part of this model. They are taken to set the claim's status, plus the pickup or delivery time, and nothing else.
- **Database failures outside the claim transaction.** The claim endpoint's `try` is modelled by a fault parameter, either inside the transaction or at one of the steps after the commit: `notify`, the job dispatch, or loading the relations and building the response. A duplicate insert is handled too, though it cannot occur under the store invariant. Database failures in the other endpoints are not modelled.
- **Queue and notifications.** Retries (`$tries = 3`) are not modelled: a job runs once, when `Api.Backend.RunNextJob` takes it. The notification classes send mail and database rows; they are recorded as entries in a notice log.
- **Framework-owned parts.** These are treated as inputs:
  - authentication, Sanctum and `hasRole` (the caller's id and roles).
- **Other endpoints.** The `show` endpoint, routing and service wiring are not modelled.
- **Floating point.** Not modelled:
  - the kilogram and meal totals of the dashboards (`Math.round(x*10)/10`);
  - `formatQuantity` and `formatDistance`;
  - the Haversine `calculateDistance` and `GeoService`;
  - the rendering of a distance number as text (the model receives it as text).

  The form validator works on reals. `RecipientDashboard.Meals` is exact on hundredths, where the source multiplies a double by 2.5.
- **Strings and time.** Strings are sequences of Unicode characters, not UTF-16 units. `toLowerCase` and `toUpperCase` act on ASCII letters only. Dates are instants already parsed. `getDay()` uses one constant offset from UTC, so daylight-saving changes are not modelled.
- **Geolocation hook.** `setTimeout`, `navigator.geolocation`, `requestAnimationFrame` and the timeout and watch refs are left out. The hook's answers arrive as calls to its transition methods. A state update after unmount is a no-op, as React makes it; this also covers `setCoordinates` and `resetToDefault`, which do not check the mounted ref themselves. The callbacks are recorded as a notice log. The hook's coordinates have a type that cannot be null.
- **Routing and navigation data.** The middleware's `matcher` pattern is not modelled: the decision is stated for every path. `NAV_ITEMS` is a parameter, as a map, so its inherited keys are not modelled.
- **Presentation.** Icons, animations, dialogs, the copy-to-clipboard and map links of `ClaimCard`, and the logout call of `UserNav` are not modelled.
- **Formatters.Truncate:** for a limit below three, the contract only says the result ends in "..."; `Formatters.TruncateExamples` pins one such case exactly.
- **DonorDashboard.Recent:** states the five newest in decreasing `created_at`, not which of several donations with equal timestamps JavaScript's stable sort keeps first.
- **Api.StatusCode:** the API model answers an unknown id through the corrected exception mapping (404), not the handler as written (500); the as-written answer is stated by `ExceptionHandler.UnknownIdAnswers500`, see Findings.
- **Requests.Prepare:** trims with PHP's `trim` character set; the framework's `TrimStrings` also strips other Unicode spaces and zero-width characters at the ends.
- **Requests.StoreErrors:** a string's numeric and date readings are inputs: PHP's `is_numeric` and `strtotime` are not modelled. A JSON number sent as `expires_at` is never read as a date, though the `date` rule would try to parse it. How a value with more decimals than its DECIMAL column holds is rounded is not modelled.
- **Api.ApplyUpdate:** `updated_at` is not modelled: an update keeps the old `updated_at`, where Eloquent would set it to the time of the update.
- **Api.Latest:** orders by creation time only, as `latest()` does; the order among equal timestamps is left open.

## Findings

| source | as written | input that shows it | evidently intended | confidence | as-written member | corrected member |
|---|---|---|---|---|---|---|
| zerohunger-api/app/Exceptions/Handler.php:56-62 | the override maps an exception before the framework converts a missing model into a not-found HTTP exception; a `ModelNotFoundException` is not a `NotFoundHttpException` and has no `getStatusCode`, so it is answered 500 | a request under `api/` for an unknown donation or claim id, e.g. `DELETE api/donations/999` | 404 "Resource not found" | not executed | ExceptionHandler.UnknownIdAnswers500 | ExceptionHandler.HandleApiExceptionCorrected |
| front-end/src/lib/utils/formatters.ts:86-101 | `CLAIM_STATUS_LABELS[normalized] ?? …` indexes an object literal, so an inherited member is found and returned instead of a string | `formatClaimStatus("constructor")` gives the function `Object` | an own-key lookup: "Constructor" by title case | not executed | Formatters.ClaimStatusReachesPrototype | Formatters.FormatClaimStatus |
| front-end/src/lib/utils/formatters.ts:107-122 | `ROLE_LABELS[normalized] ?? …` has the same inherited-member lookup | `formatUserRole("constructor")` gives the function `Object` | an own-key lookup: "Constructor" by title case | not executed | Formatters.UserRoleReachesPrototype | Formatters.FormatUserRole |
| front-end/src/lib/utils/formatters.ts:34-54 | `normalized in FoodType` tests the enum's PascalCase member names, which a lower-cased value never matches; it holds only for an inherited name, which then indexes the label table | `formatFoodType("constructor")` gives the function `Object` | only the test on the enum's values, and title case otherwise | not executed | Formatters.FoodTypeReachesPrototype | Formatters.FormatFoodType |
