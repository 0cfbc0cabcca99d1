# maman_tracker: the capture log and its dashboard, in Dafny

`maman_tracker.py` is a Flask server with three capture endpoints and a
dashboard. This project models that server's logic:

- the module-level `locations` list, created empty;
- `capture_ip` and `capture_gps`. Each takes the client's JSON dictionary,
  overwrites `source`, `accuracy_type`, `user_ip` and `captured_at`, appends
  the dictionary to `locations` and rewrites `locations.json`;
- `capture_denied`, which only acknowledges;
- `view_logs`, which recomputes the statistics (total, GPS count, IP count,
  success rate) and the listing (most recent first, numbered from 1) from the
  whole list on every request.

Files:

- `json.dfy` (module `Json`): JSON values. A record is a `map<string, Json>`.
  `Get` models `dict.get(key, default)`.
- `records.dfy` (module `Records`): the two fixed source strings and the
  substring test `'GPS' in loc['source']`. `Stamp` is the server's four-key
  override. `Stamped` is the shape every logged record has.
- `dashboard.dfy` (module `Dashboard`): the counts, the success rate, the
  summary, the structured listing entries and the whole page, all as pure
  functions. Lemmas relate them to the log and to captures.
- `tracker.dfy` (module `Tracker`): class `LocationLog`. Its field
  `locations` is updated by the handler methods. Its ghost field `snapshots`
  records what each `save_to_file()` wrote. `ViewLogs` runs the listing loop
  and is proved equal to the `Dashboard.View` function. Three client methods
  walk through end-to-end scenarios.

Inputs the handlers get from their environment are parameters:
`request.remote_addr` is a `string`, the formatted `datetime.now()` is an
opaque `string`, and `request.json` is a `Json` value. `jsonify(...)`
becomes a `Reply`. An uncaught exception, which Flask turns into an HTTP
500, becomes `ServerError`.

Where a reader might expect otherwise, the model follows the code:

- Denials are not added to the log. `capture_denied` only prints and returns
  `'logged'`.
- A GPS body without `latitude` or `longitude` is not rejected. It is
  appended first, and then the handler fails at the subscript before the file
  is written. An IP body is never checked for coordinates.
- A body that is not a JSON object fails at the first key assignment. In that
  case nothing is appended.
- The success rate is an integer percentage, not a fraction.
- A failed file write is not caught.
- The endpoints are `/capture_ip`, `/capture_gps`, `/capture_denied` and
  `/logs`.

## Model

| member | source | states |
|---|---|---|
| `Json.Get` | maman_tracker.py:645-660 | `loc.get(key, default)`: the stored value when the key is present, otherwise the default text. It has no contract of its own; `Dashboard.ClientKeyShown` states what it returns on a logged record. |
| `Records.Contains` | maman_tracker.py:610-611 | Python's substring test `p in s`: `p` occurs in `s` at some index. It has no contract of its own; `Records.GpsSourceClassified`, `Records.IpSourceClassified` and `Records.MissingCharNotContained` state its value on the source strings. |
| `Records.Stamp` | maman_tracker.py:481-485 | The appended record has the client's keys plus the four server keys. `source`, `accuracy_type`, `user_ip` and `captured_at` hold the server's values whatever the client sent. Every other client key keeps its value. Used for both handlers (lines 509-513 are the GPS copy). |
| `Records.StampIsStamped` | maman_tracker.py:509-513 | Every record a handler builds has one of the two source strings with its matching accuracy type, and string `user_ip` and `captured_at`. |
| `Records.GpsSourceClassified` | maman_tracker.py:610-611 | `'GPS Precise (Permission Granted)'` contains `'GPS'` and does not contain `'IP'`. |
| `Records.IpSourceClassified` | maman_tracker.py:610-611 | `'IP Geolocation (Approximate)'` contains `'IP'` and does not contain `'GPS'`. |
| `Records.Classify` | maman_tracker.py:637 | A record's kind decides the substring tests: `'GPS' in source` holds iff the record is GPS, and `'IP' in source` holds iff it is IP. |
| `Records.MissingCharNotContained` | maman_tracker.py:610 | A string that lacks one of the characters of a pattern does not contain the pattern. |
| `Dashboard.IsGps` | maman_tracker.py:637 | `is_gps = 'GPS' in loc['source']`. It has no contract of its own; `Records.Classify` and `Dashboard.EntryOfCapture` state that it holds exactly for GPS captures. |
| `Dashboard.CountWith` | maman_tracker.py:610-611 | The count of records whose source contains a substring is at most the log's length. It is 0 iff no record matches. It equals the length iff every record matches. |
| `Dashboard.CountAppend` | maman_tracker.py:487 | Appending a record adds one to exactly the counts whose substring its source contains. |
| `Dashboard.PercentBounds` | maman_tracker.py:630 | For a positive total, the percentage of GPS records is at most 100. It is 100 iff every record is GPS. |
| `Dashboard.SuccessRate` | maman_tracker.py:630 | The rate is 0 when the log is empty or has no GPS record. Otherwise it lies in 0..100, and it is 100 iff the GPS count equals the total. |
| `Dashboard.Summarize` | maman_tracker.py:609-611 | `total` is the number of records, and both counts are at most `total`. |
| `Dashboard.TotalIsSum` | maman_tracker.py:609-611 | On a log of stamped records, `total == gps_count + ip_count`: each record is counted once, as GPS or as IP, never both. |
| `Dashboard.RateEndpoints` | maman_tracker.py:630 | The displayed rate is in 0..100. It is 0 on an empty log. On a non-empty log it is 100 iff every record is GPS. It is 0 when no record is GPS. |
| `Dashboard.SummaryAfterCapture` | maman_tracker.py:515 | A capture's append raises `total` by one. It raises the GPS count by one for a GPS capture and the IP count by one for an IP capture, and leaves the other count unchanged. |
| `Dashboard.RenderEntry` | maman_tracker.py:637-664 | The loop body for capture `#i`: badge, source, coordinates (`N/A` default), the GPS or IP lines with their defaults, the IP line (`user_ip`, else `ip`, else `Unknown`), the time and the map query (`0` default). It has no contract of its own; `Dashboard.EntryOfCapture` states what it shows for a logged record. |
| `Dashboard.EntryOfCapture` | maman_tracker.py:641-659 | The entry for a captured record has the right badge (GPS iff a GPS capture) and the server's source text, address and timestamp. The coordinates show the client's values or `N/A`. GPS entries show accuracy, altitude and speed (`N/A` if absent). IP entries show city and region (`Unknown` if absent), the fixed city-level caveat and the ISP. |
| `Dashboard.ClientKeyShown` | maman_tracker.py:484-485 | For every key the server does not assign, `get` on the stamped record returns what it returns on the client's dictionary, with the same default. |
| `Dashboard.Reversed` | maman_tracker.py:636 | `reversed(s)` has the same length as `s`, and position `k` holds `s[len - 1 - k]`. |
| `Dashboard.Enumerate` | maman_tracker.py:636 | Rendering `enumerate(records, start)` gives one entry per record. |
| `Dashboard.EnumerateAt` | maman_tracker.py:636 | Entry `k` of `enumerate(records, start)` renders `records[k]` under number `start + k`. |
| `Dashboard.Listing` | maman_tracker.py:636 | `enumerate(reversed(locations), 1)` with each record rendered. It has no contract of its own; `Dashboard.ListingAt`, `Dashboard.ListingCharacterized` and `Dashboard.ListingAfterAppend` state its length, order and numbering. |
| `Dashboard.ListingAt` | maman_tracker.py:636-644 | The listing has one entry per record. Entry `#i` renders `locations[total - i]`, so `#1` is the most recent capture. |
| `Dashboard.ListingCharacterized` | maman_tracker.py:636 | Any sequence with one entry per record in which position `k` renders `locations[total - 1 - k]` as `#k+1` is the listing. |
| `Dashboard.ListingAfterAppend` | maman_tracker.py:487 | After an append, the new record is entry `#1`. Every older entry moves down one place, and only its number changes. |
| `Dashboard.Renumbered` | maman_tracker.py:644 | An entry's position changes only its `Capture #` number. |
| `Dashboard.View` | maman_tracker.py:666-667 | The "No locations captured yet." notice is shown iff the listing is empty iff `total == 0`. |
| `Dashboard.IpThenGpsPage` | maman_tracker.py:609-644 | After one IP capture and then one GPS capture, the page reports total 2, GPS 1, IP 1 and rate 50. Its first entry is the GPS capture, numbered 1, and no empty-log notice is shown. |
| `Tracker.LocationLog.constructor` | maman_tracker.py:13 | The log starts empty and no file has been written. |
| `Tracker.LocationLog.SaveToFile` | maman_tracker.py:547-549 | The file is overwritten with the whole current log. The log is unchanged. |
| `Tracker.LocationLog.CaptureIp` | maman_tracker.py:479-505 | For an object body, exactly one stamped IP record is appended at the end, earlier records are unchanged, the file is rewritten with the new log, and the reply is `success`. For any other body, the log and the file are unchanged and the handler fails. |
| `Tracker.LocationLog.CaptureGps` | maman_tracker.py:507-534 | For an object body, exactly one stamped GPS record is appended at the end. With both coordinates present, the file is rewritten and the reply is `success`. If `latitude` or `longitude` is missing, the record stays appended, the file is not written, and the handler fails on the first missing key. A non-object body changes nothing. |
| `Tracker.LocationLog.CaptureDenied` | maman_tracker.py:536-545 | The reply is `logged`. The method has no `modifies` clause, so the log and the file cannot change. |
| `Tracker.LocationLog.ViewLogs` | maman_tracker.py:609-667 | The page is `View(locations)`: the summary, the listing and the empty notice. Entry `k` renders `locations[total - 1 - k]` as capture `#k+1`. |

`Tracker.LocationLog.Valid` is the class invariant that every method keeps:

- every record is stamped;
- every file written so far holds a prefix of the current log, because the
  log only grows.

## Left out

- The three HTML/JavaScript lure pages, `TEMPLATES`, `current_template` and
  `index` (maman_tracker.py:16-477). They are browser-side asynchronous code
  (ipapi.co lookup, `navigator.geolocation`, redirects) with no server logic.
- The HTML and CSS text of the dashboard. The page is modelled as structured
  entries (`Dashboard.Entry`, `Dashboard.Page`) holding each shown value or
  its default. The badge and `div` CSS classes are the `isGps` flag.
- All `print` console output of the handlers.
- `main` and `print_banner` (maman_tracker.py:672-729): the interactive
  prompt and the server start-up.
- `json.dump` serialisation and file I/O. `save_to_file` is the ghost
  `snapshots` history. Its failure is not modelled: every write is taken to
  succeed. In the code a failed write raises after the append.
- Dashboard.SuccessRate: computes ⌊100·gps/total⌋ in exact integer
  arithmetic. The code computes `int(gps_count/total*100)` in double
  precision, which can come out one lower (29 of 100 gives 28). The contract
  therefore states only the bounds and the 0 and 100 endpoints, which hold for
  both computations. `Dashboard.IpThenGpsPage`'s rate of 50 is exact in both.
- Timestamps are opaque strings, so the property that arrival order is time
  order is not stated. Clock reading and `strftime` formatting are left out.
- `request.remote_addr` is always a string here. The case where the WSGI
  server gives `None` is not modelled.
- Python dictionaries keep insertion order and maps do not. Key order
  matters only to the `json.dump` text, which is left out.
- Concurrency: Flask may serve requests on several threads, and the list
  append is unlocked. Handlers are modelled as running one at a time.
- JSON numbers keep their literal text. The tracker never computes with them.
