# A model of the medical-facility search service

The service is a small Flask web application (`app.py`) that answers three JSON
endpoints, and a loader script (`Init_db.py`) that copies the hospital registry
CSV into a database table.

- **Hospital search** (`/api/hospitals`, `get_hospitals`). It reads the hospital
  registry CSV. It keeps the rows that have coordinates, whose name contains the
  keyword and that lie within the radius (default 3 km). It lists them by
  ascending rounded distance.
- **Emergency rooms** (`/api/emergency`, `get_emergency`). It reads the
  real-time emergency-room feed. It joins each item by its exact `dutyName` to a
  registry of sites built from the CSV. It lists at most ten rooms: rooms with
  free beds first, nearest first within each group.
- **Pharmacies** (`/api/pharmacy`, `get_pharmacy`). It reads the pharmacy feed.
  It keeps the pharmacies within the radius. Each entry carries:
  - today's opening status;
  - the raw opening times of the seven weekdays;
  - a weekly summary line.

  Open pharmacies come first, nearest first within each group.
- **Loader** (`init_database`). It keeps the CSV rows whose two coordinates
  parse. It turns each one into a seven-field tuple. It hands the tuples to the
  database in consecutive batches of 1000 and reports a running count after each
  batch.

The model is Dafny 4. It is split into modules:

| module | what it holds |
|---|---|
| `Wrappers` | `Option`, and `Outcome` (`Ok(value)` or `Raised`, for an exception that escapes the code it is in) |
| `PyText`, `PyNum` | the parts of Python's `str`, `int()`, `float()` and `round()` that the code relies on |
| `Records` | flat text records (a CSV row or a feed item), the tree `xmltodict` produces, and the handler replies |
| `Feed` | the normalisation of a feed's `response/body/items/item` shape |
| `Visits` | the loop shape the handlers share (append, `continue` or raise), and dicts filled in a loop |
| `Ranking` | Python's stable `list.sort(key=...)` with a `(flag, distance)` key, and `[:n]` |
| `Hours` | `format_time`, `format_all_pharmacy_hours`, `is_pharmacy_open` |
| `Hospitals`, `Emergency`, `Pharmacy` | the three handlers |
| `InitDb` | the loader |

Each handler is written twice:

- A function (`HospitalsReply`, `EmergencyReply`, `PharmacyReply`) states the
  answer.
- A method (`GetHospitals`, `GetEmergency`, `GetPharmacy`) follows the source's
  loops and early exits. It is proved to return the function's answer.

Lemmas then state what the answer means. The same pairing is used for:

- the loader (`ReadRows`, `InsertBatches`);
- the loops inside the handlers (`BuildRegistry`, `CollectHours`);
- the module-level `format_all_pharmacy_hours` (app.py:68-98), whose loop
  over the seven days becomes the method `FormatAllPharmacyHours`;
- the pharmacy coordinate fallback, which reassigns its variables without a
  loop (`ReadCoord`).

The program's inputs become parameters:

- the request arguments, already converted (`None` when absent);
- the CSV rows (`None` when the file does not exist);
- the outcome of the feed call (`Unreachable`, `Unparsable` or the parsed tree);
- the local time (`Clock`);
- the distance function.

## Model

| member | source | states |
|---|---|---|
| `PyText.StripLeft` | app.py:51 | `lstrip` leaves a suffix of the input, removes only whitespace, and leaves no leading whitespace |
| `PyText.StripRight` | app.py:51 | `rstrip` leaves a prefix of the input, removes only whitespace, and leaves no trailing whitespace |
| `PyText.Strip` | app.py:51 | `strip()` is a slice of the input that neither begins nor ends with whitespace, everything cut off before and after it is whitespace, and it is empty exactly when the input is all whitespace |
| `PyText.StripLeftPadded` | app.py:51 | `lstrip` removes exactly a whitespace padding in front of a string that does not start with whitespace |
| `PyText.StripRightPadded` | app.py:51 | `rstrip` removes exactly a whitespace padding behind a string that does not end with whitespace |
| `PyText.StripPadded` | app.py:51 | `strip()` of a string with whitespace of any length before and after it, possibly none on one side, is the string |
| `PyText.StripIdempotent` | app.py:51 | stripping twice is stripping once |
| `PyText.StripTrimmed` | app.py:51 | a string without whitespace at either end is its own strip |
| `PyText.ContainsSuffix` | app.py:95 | `b in a + b` holds for the substring test |
| `PyText.MissingCharNotContained` | app.py:95 | a string lacking one character of `p` does not contain `p` |
| `PyText.JoinNonEmpty` | app.py:98 | joining parts whose first is non-empty gives a string that starts with that first part |
| `PyNum.PyFloat` | app.py:54 | `float()` of text: blank text is never a number, and a negative value needs a leading `-` after stripping; the values of digit literals are stated by `PyNum.PyFloatOfWhole`, `PyNum.PyFloatOfDecimal` and `PyNum.PyFloatNegate` |
| `PyNum.PyInt` | app.py:121-122 | `int()` of text: blank text is never a number, and a negative value needs a leading `-` after stripping |
| `PyNum.SafeFloat` | app.py:46-56 | `safe_float` is None for None and for blank text, and otherwise is `float()` of the text |
| `PyNum.PyFloatStrip` | app.py:51-54 | `float()` of stripped text equals `float()` of the text |
| `PyNum.StripUnspaced` | app.py:121-122 | a string that starts and ends with a digit is its own strip |
| `PyNum.DigitsAreDigitPart` | app.py:121-122 | a non-empty string of ASCII digits is a valid integer literal body |
| `PyNum.PyIntOfDigits` | app.py:121-122 | `int()` reads a string of ASCII digits as its decimal value, leading zeros allowed |
| `PyNum.UnsignedFloat` | app.py:54 | the value of a literal after its sign, when it has one, is never negative |
| `PyNum.DigitCountOfDigits` | app.py:54 | a string of ASCII digits has as many digits as characters |
| `PyNum.FindPoint` | app.py:54 | the first `.` of `ip.fp` with `ip` all digits is the one after `ip` |
| `PyNum.PointSplit` | app.py:54 | `ip.fp` with `ip` all digits splits at its first `.` into `ip` and `fp` |
| `PyNum.WholeMantissa` | app.py:54 | a mantissa of ASCII digits has the value its digits spell |
| `PyNum.PointMantissa` | app.py:54 | a mantissa `ip.fp` of ASCII digits has the value `ip + fp / 10^len(fp)` |
| `PyNum.MantissaAtPoint` | app.py:54 | a mantissa whose first `.` splits it into two digitparts has the value of the two parts |
| `PyNum.FloatLiteralOfMantissa` | app.py:54 | a literal without sign or exponent that starts with a digit has the value of its mantissa |
| `PyNum.FloatLiteralNegate` | app.py:54 | an unsigned literal with a leading `-` is the negation of the literal, and is rejected exactly when the literal is |
| `PyNum.PyFloatNegate` | app.py:54 | `float("-" + t)` is `-float(t)` for an unsigned literal `t`, and raises exactly when `float(t)` does |
| `PyNum.PyFloatOfMantissa` | app.py:54 | `float()` of a literal without sign or exponent is the value of its mantissa |
| `PyNum.DecimalShape` | app.py:54 | `ip.fp` made of ASCII digits starts and ends with a digit and has no exponent mark |
| `PyNum.PyFloatOfWhole` | app.py:54 | `float()` of a whole number of ASCII digits is the number it spells |
| `PyNum.PyFloatOfDecimal` | app.py:54 | `float("ip.fp")` of ASCII digits is `ip + fp / 10^len(fp)` |
| `PyNum.SafeFloatPadded` | app.py:46-56 | `safe_float` of a literal with whitespace of any length before and after it is `float()` of the literal |
| `PyNum.SafeFloatOfWhole` | app.py:46-56 | `safe_float` of a whole number of ASCII digits, with any whitespace before and after, is the number it spells |
| `PyNum.SafeFloatOfDecimal` | app.py:46-56 | `safe_float` of `ip.fp` made of ASCII digits, with any whitespace before and after, is `ip + fp / 10^len(fp)` |
| `PyNum.RoundHalfEven` | app.py:184 | `round(x)` is within one half of `x`, and an exact tie goes to the even integer |
| `PyNum.Round2` | app.py:184 | `round(d, 2)` is a whole number of hundredths within 0.005 of `d` |
| `Records.DayKey` | app.py:75-76 | `f"dutyTime{i}s"` is the prefix, then the digit of the day (`1` to `7`), then the one-letter suffix |
| `Records.DayKeyInjective` | app.py:342-345 | two day keys with one prefix are equal only for the same day and the same end |
| `Feed.AsList` | app.py:225-226 | a list is kept, anything else becomes a one-element list |
| `Feed.AsRecord` | app.py:247 | an item is usable as a record exactly when it is a dict of text fields, and a lookup then gives that field or None |
| `Feed.EmergencyItems` | app.py:217-226 | a path lacking `response`, `body` or `items` gives no items; so does a falsy `items`; otherwise `items["item"]` as a list, and a raise when `item` is missing |
| `Feed.PharmacyItems` | app.py:308-319 | the same as `EmergencyItems`, except that only an `items` that is None counts as empty |
| `Feed.NormalisationsAgree` | app.py:217-226 | the two normalisations agree unless `items` is falsy but not None |
| `Feed.EmptyItemsDictDiverges` | app.py:313-317 | an empty `items` dict gives no emergency items but makes the pharmacy normalisation raise |
| `Visits.Collect` | app.py:164-187 | the loop's result has at most one entry per element |
| `Visits.CollectSnoc` | app.py:164-187 | one more element either raises, is skipped without changing the result, or appends its entry |
| `Visits.CollectStep` | app.py:164-187 | when element `i` does not raise, the result before `i + 1` is the result before `i`, plus that element's entry if any |
| `Visits.CollectRaised` | app.py:164-187 | the loop raises exactly when some element raises |
| `Visits.RaisedAt` | app.py:164-187 | one raising element makes the loop raise |
| `Visits.CollectMembers` | app.py:164-187 | without a raise, an entry is in the result exactly when some element produces it |
| `Visits.CollectAppend` | app.py:164-187 | the loop keeps the input order: the entries of `a + b` are those of `a`, then those of `b` |
| `Visits.TabulateKeys` | app.py:232-241 | a key is in a loop-filled dict exactly when some element sets it |
| `Visits.TabulateLastWins` | app.py:232-241 | the last element that sets a key decides its value |
| `Visits.KeptAppend` | Init_db.py:37-54 | a loop that appends or skips keeps the input order |
| `Visits.KeptMembers` | Init_db.py:37-54 | an output is kept exactly when some element gives it |
| `Visits.KeptLength` | Init_db.py:37-54 | the number of outputs is the number of elements not skipped |
| `Ranking.KeyLeTotalOrder` | app.py:265 | tuple comparison of `(flag, distance)` is a total order |
| `Ranking.Insert` | app.py:191 | inserting keeps a sorted sequence sorted and adds exactly the one element |
| `Ranking.InsertedBeforeLast` | app.py:191 | passing the new element over a larger last element keeps the sequence sorted |
| `Ranking.Sort` | app.py:191 | the sort returns a permutation of its input in key order |
| `Ranking.WithKeyAppend` | app.py:191 | appending an element extends the elements of its key and no other |
| `Ranking.InsertStable` | app.py:191 | insertion places the new element after every element with the same key |
| `Ranking.SortStable` | app.py:359 | the sort is stable: for each key, the elements with that key keep their input order |
| `Ranking.WithKeyPresent` | app.py:191 | some element has key `k` exactly when the elements with key `k` are not none |
| `Ranking.LastKeyIsMax` | app.py:191 | in key order no key exceeds the last one |
| `Ranking.LastKeysAgree` | app.py:191 | two ordered sequences that agree key by key end with the same key |
| `Ranking.DropLastSame` | app.py:191 | last elements that share a key and agree on that key's elements are equal |
| `Ranking.DropLastAt` | app.py:191 | removing an equal last element keeps the agreement on any one key |
| `Ranking.DropLastAgrees` | app.py:191 | removing the last elements keeps the key-by-key agreement |
| `Ranking.StableOrderUnique` | app.py:191 | two ordered sequences that agree key by key are equal |
| `Ranking.SortIsTheStableSort` | app.py:191 | the sort's output is the only ordered sequence that keeps the input order within every key |
| `Ranking.Top` | app.py:266 | `s[:n]` is the first `min(n, len(s))` elements |
| `Ranking.TopKeepsBest` | app.py:266 | cutting an ordered sequence never drops an element that ranks strictly before a kept one |
| `Hours.FormatTime` | app.py:59-65 | a four-character time gets a colon after its second character, and removing the colon gives the input back; anything else is "정보없음" |
| `Hours.Lines` | app.py:74-92 | there are seven day lines, Monday's first |
| `Hours.FormatAllPharmacyHours` | app.py:68-98 | the method's loop returns the summary: "" when every line is marked, else the seven lines joined by a vertical-bar separator |
| `Hours.FormatDay` | app.py:75-92 | the loop body for one day gives that day's line: both times shown, "시간 확인 불가", or "휴무 또는 정보없음" |
| `Hours.UntimedLineMarked` | app.py:83-95 | a day without both times shown gets a line that says so |
| `Hours.NotInDigits` | app.py:95 | a non-digit character is not in a string of digits |
| `Hours.TimedLineShown` | app.py:83-95 | a day with two digit times shows them, and its line is not marked |
| `Hours.ShownLineUnmarked` | app.py:87-95 | a line made of a day name and two digit times holds none of the markers "정보없음", "휴무", "확인 불가" |
| `Hours.SummaryEmptyIff` | app.py:94-98 | provided every four-character time the item shows is made of ASCII digits: the summary is "" exactly when no day has both times shown; otherwise it is the joined lines, starting with Monday's |
| `Hours.UntimedSummaryEmpty` | app.py:94-96 | when no day has both times shown, every line is marked and the summary is "" |
| `Hours.TimedSummaryJoined` | app.py:83-98 | one day showing two digit times makes the summary the seven lines joined by " \| ", starting with Monday's |
| `Hours.SummaryOfUntimedItem` | app.py:94-96 | an item with no `dutyTime` keys at all has the summary "" |
| `Hours.HHMM` | app.py:120 | `int(now.strftime("%H%M"))` is at most 2359; its hundreds are the hour and its last two digits the minute |
| `Hours.Window` | app.py:124-133 | a window ending before it starts, at 2400 or earlier, runs past midnight; otherwise both ends are inclusive |
| `Hours.OvernightClosedBetween` | app.py:124-128 | an overnight window is closed exactly during the day window between its closing and opening times |
| `Hours.PharmacyStatus` | app.py:104-135 | "정보없음" exactly when today's opening or closing time is missing or empty; "확인불가" exactly when one is not an integer; otherwise the window test decides |
| `Hours.StatusOfTimes` | app.py:119-133 | once today's two times are integers, the window test decides the status |
| `Hours.WeekdayCodes` | app.py:106-110 | Monday reads `dutyTime1s`/`dutyTime1c`, Sunday `dutyTime7s`/`dutyTime7c` |
| `Hours.ExampleDigitValues` | app.py:124 | the digits "2200" and "0200" spell 2200 and 200 |
| `Hours.ExampleTimes` | app.py:121-122 | `int("2200") == 2200` and `int("0200") == 200` |
| `Hours.OvernightExample` | app.py:124-128 | with times 2200 and 0200 a pharmacy is open at 01:00 and closed at 15:00 |
| `Hospitals.VisitRow` | app.py:165-187 | a row: skipped without coordinates; raises exactly on a missing name column, a None name with a keyword, or a missing address or phone for a kept row; an entry satisfies `Listed` |
| `Hospitals.NearbyEntry` | app.py:173-185 | skipped exactly when the coordinates do not parse or lie outside the radius; raises exactly when a near row lacks address or phone; an entry has the row's data and the rounded distance |
| `Hospitals.HospitalsReply` | app.py:149-192 | 400 without a location; the CSV-missing error when the file does not exist; a server error exactly when some row raises (proved in `Hospitals.HospitalsServerError`); otherwise a listing in ascending distance |
| `Hospitals.ReadRow` | app.py:165-187 | the loop body, with `continue` and raises as early exits, gives `VisitRow`'s outcome |
| `Hospitals.ReadNearby` | app.py:173-185 | the loop body after the name test gives `NearbyEntry`'s outcome |
| `Hospitals.GetHospitals` | app.py:149-192 | the handler's loop, sort and early returns give `HospitalsReply`'s answer |
| `Hospitals.HospitalsListed` | app.py:164-192 | the listing holds the collected entries with their multiplicities; a hospital is listed exactly when some row yields it, and every listed one lies within the radius, has its distance rounded and matches the keyword |
| `Hospitals.HospitalsServerError` | app.py:164-187 | the search fails with a server error exactly when some row raises |
| `Emergency.RowSite` | app.py:233-241 | a CSV row is skipped exactly when a column is missing, a coordinate cell is empty or a coordinate does not parse; otherwise it maps its name to its coordinates, address and phone |
| `Emergency.ReadSite` | app.py:233-241 | the loop body, with the `except` as an early exit, gives `RowSite`'s entry |
| `Emergency.RegistryStep` | app.py:232-241 | a usable row sets or overwrites the entry for its name and no other; a skipped row changes nothing (so the last usable row with a name decides its entry, as `Visits.TabulateLastWins` states) |
| `Emergency.RegistryKeys` | app.py:232-241 | a name is in the registry exactly when some usable row carries it |
| `Emergency.BuildRegistry` | app.py:228-243 | the loop over the CSV builds the registry; a missing file leaves it empty |
| `Emergency.Hvec` | app.py:261-262 | `int(item.get("hvec", 0))` is 0 without `hvec`; it raises on an empty or non-integer value, and otherwise is that integer |
| `Emergency.JoinItem` | app.py:246-263 | an item raises exactly when it is not a record, or its name is a registry key and the user position is missing or its `hvec` does not parse; an item whose name is not a registry key is dropped; a joined entry has the registry site, the item's phone and bed count, the rounded distance, and status "가능" exactly for a positive bed count |
| `Emergency.EmergencyReply` | app.py:198-266 | a failed or unparsable feed call is an error; a parsed feed whose `items` has no `item` is a server error; once the feed's items normalise, a server error exactly when some item raises in the join (proved in `Emergency.EmergencyServerError`); a listing has at most ten entries in availability order |
| `Emergency.EmergencyReplyOfJoin` | app.py:245-266 | after a successful join the answer is the joined rooms sorted by `(status == "불가", distance)` and cut to ten |
| `Emergency.GetEmergency` | app.py:198-266 | the handler's steps give `EmergencyReply`'s answer |
| `Emergency.JoinOne` | app.py:246-263 | the loop body, with early exits, gives `JoinItem`'s outcome |
| `Emergency.JoinRooms` | app.py:245-263 | the loop over the items gives the joined sequence, or a raise |
| `Emergency.RankedRooms` | app.py:265-266 | the ten best joined rooms: available before unavailable, ascending distance within a group, all joined, and every room listed when at most ten were joined |
| `Emergency.AvailabilityOrder` | app.py:265 | rooms sorted by `(status == "불가", distance)` have every available room before every unavailable one, and ascending distance within each group |
| `Emergency.EmergencyListing` | app.py:245-266 | the listing after a successful join has those properties, and every entry's name is a registry key |
| `Emergency.JoinedNamesKnown` | app.py:247-251 | every joined room's name is a registry key |
| `Emergency.JoinedFromRegistry` | app.py:246-263 | every joined room is produced by some feed item |
| `Emergency.JoinedRoomKnown` | app.py:247-251 | a room an item joins to is named by a registry key |
| `Emergency.EmergencyServerError` | app.py:245-263 | once the feed's items normalise, the reply is a server error exactly when some item raises in the join |
| `Emergency.ItemJoins` | app.py:246-263 | a record item whose name is a registry key, with a user position and a readable `hvec`, joins to a room made from it |
| `Emergency.KnownItemJoined` | app.py:246-263 | such an item's room is among the joined rooms |
| `Emergency.KnownItemListed` | app.py:245-266 | when at most ten rooms join, such an item's room is listed |
| `Emergency.JoinedListed` | app.py:245-266 | when at most ten rooms join, every joined room is listed |
| `Emergency.EmergencyCutKeepsBest` | app.py:265-266 | a joined room left out by the cut ranks no better than any listed room |
| `Emergency.EmergencyStable` | app.py:265 | within each key, rooms keep the feed's order |
| `Pharmacy.PharmacyCoord` | app.py:325-335 | the `wgs84` pair is used when both parse; otherwise the `latitude`/`longitude` pair when both parse; the two pairs are never mixed |
| `Pharmacy.ReadCoord` | app.py:325-335 | the source's reassigning code gives `PharmacyCoord` |
| `Pharmacy.HoursUpToLookup` | app.py:342-345 | `hours_raw` has a key `time{d}s`/`time{d}c` exactly for days 1–7, with the item's matching `dutyTime` value |
| `Pharmacy.HoursUpToKeys` | app.py:342-345 | every key of `hours_raw` is one of those fourteen |
| `Pharmacy.CollectHours` | app.py:342-345 | the loop builds `hours_raw` for all seven days |
| `Pharmacy.VisitItem` | app.py:322-357 | an item raises exactly when it is not a record; it is skipped only without a position or outside the radius; an entry satisfies `Shows` |
| `Pharmacy.PharmacyReply` | app.py:272-364 | 400 without a location; a failed call is a 500; an unparsable body is a 502; a provider envelope passes its message on; a body whose envelope test raises, or whose non-None `items` has no `item`, is a 500; once the items normalise, a 500 exactly when some item is not a dict (proved in `Pharmacy.PharmacyServerError`); a listing is ordered open-first |
| `Pharmacy.ReadItem` | app.py:322-357 | the loop body, with early exits, gives `VisitItem`'s outcome |
| `Pharmacy.ListPharmacies` | app.py:321-357 | the loop over the items gives the collected entries, or a raise |
| `Pharmacy.PharmacyServerError` | app.py:317-364 | once the feed is not a provider envelope and its items normalise, the reply is a 500 exactly when some item is not a dict |
| `Pharmacy.GetPharmacy` | app.py:272-364 | the handler's steps give `PharmacyReply`'s answer |
| `Pharmacy.PharmacyListing` | app.py:321-360 | the listing holds the collected entries with their multiplicities; open pharmacies come first, distance ascends within a group, a pharmacy is listed exactly when an item yields it, and that item's position, status, hours and summary are its own |
| `InitDb.LoaderSafeFloat` | Init_db.py:15-19 | the loader's `safe_float` is None for a falsy or blank value |
| `InitDb.SafeFloatsAgree` | Init_db.py:15-19 | the loader's `safe_float` and the application's agree on every value |
| `InitDb.LoaderSafeFloatOfDecimal` | Init_db.py:15-19 | the loader reads a coordinate of ASCII digits, with or without a fraction part and with any whitespace before and after, as the number it spells |
| `InitDb.ToRow` | Init_db.py:38-54 | a row is kept exactly when both coordinates parse, and its tuple holds the row's fields, with an empty department when the cell is falsy |
| `InitDb.ReadRows` | Init_db.py:33-54 | the loop builds `data_list` |
| `InitDb.DataListAppend` | Init_db.py:37-54 | `data_list` keeps the CSV order |
| `InitDb.DataListMembers` | Init_db.py:37-54 | a tuple is in `data_list` exactly when some row gives it |
| `InitDb.Batches` | Init_db.py:64-66 | there are `ceil(n / 1000)` batches |
| `InitDb.Progress` | Init_db.py:68 | one progress count is reported per batch |
| `InitDb.InsertBatches` | Init_db.py:64-68 | the batching loop hands over exactly those batches and reports exactly those counts |
| `InitDb.FlattenPrefix` | Init_db.py:64-66 | the first `k` batches hold the first `min(1000k, n)` tuples |
| `InitDb.BatchesCover` | Init_db.py:64-66 | the batches together are `data_list`, in order |
| `InitDb.BatchSizes` | Init_db.py:64-66 | every batch holds 1 to 1000 tuples, and every batch but the last exactly 1000 |
| `InitDb.ProgressMonotone` | Init_db.py:68 | the reported counts strictly increase |
| `InitDb.ProgressEndsAtLength` | Init_db.py:64-68 | no count is reported for an empty `data_list`; otherwise the last count is `len(data_list)`, also when there is a single batch |
| `InitDb.InitDatabase` | Init_db.py:21-77 | an unreadable file gives no batches; otherwise the loader hands over the batches of `data_list` |

## Left out

- HTTP handling is not modelled: Flask routing, `request.args` conversion, `jsonify`, CORS and status codes. The defaults (radius 3.0, keyword "") and `type=float` are left to the caller; a reply variant stands for each status code.
- The distance function `calculate_distance` (app.py:38-44) is a parameter. It is floating-point trigonometry, which Dafny's exact reals cannot express.
- Floating point: `float()` is read into exact reals, and `round(d, 2)` rounds the exact value half-to-even. Binary representation effects are not modelled.
- `float()` of "inf", "nan" and their spellings is None in the model, while Python accepts them. So the model skips rows and items that Python would keep or that would make Python raise later.
- `int()` and `float()` (and so `PyNum.SafeFloat` and `InitDb.LoaderSafeFloat`) accept only ASCII digits in the model; Python also accepts other Unicode decimal digits (`float("３７.５")` is 37.5). So the model skips CSV rows and feed items with such coordinates, which Python keeps, and answers "확인불가" for such opening times.
- Feed items that hold nested elements (a field that is itself a dict or list) raise in `Feed.AsRecord`; Python would pass such a field on, and `is_pharmacy_open` would answer "확인불가" for it. XML attributes that `xmltodict` turns into `@` keys are treated as ordinary fields.
- The network call, `xmltodict.parse` and the exception message texts are not modelled. The outcome of the call is a parameter; the message texts of the 500 replies are not kept.
- The clock is read once per request (`Hours.Clock`); Python calls `datetime.now()` once per pharmacy item.
- `get_hospitals` (app.py:161-189) catches only `FileNotFoundError` around the file: a file that exists but cannot be opened or decoded gives Flask's generic 500 there, while `get_emergency` and the loader catch every failure. The model has one "no rows" input (`None`), read as a missing file by `Hospitals.HospitalsReply`; the generic 500 of an unreadable file is not modelled.
- CSV reading is not modelled: file opening, encodings, `utf-8` vs `utf-8-sig` (a byte-order mark would change the first column's name) and DictReader's parsing. The rows are a parameter, and a short row's missing cells are None.
- `Ranking.Sort`: Python's built-in sort works in place; the model is a functional stable insertion sort, proved to be the unique stable ordering.
- `print` diagnostics are not modelled, nor the environment and `.env` key loading.
- The home page route, the chat endpoint (`chat_bot`, which calls an external AI service), `backend/app.py` and the front-end scripts are not part of this model.
- The database calls in `Init_db.py` (connect, `TRUNCATE`, `executemany`, `commit`, `rollback`, `close`) are not modelled; the model stops at the batches handed to `executemany`.
- The length of `data_list` is stated only through the generic `Visits.KeptLength`, not as a lemma about `InitDb.DataList`.
