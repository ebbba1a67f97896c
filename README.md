# Ticket prioritisation of the customer-support backend, in Dafny

This project models the two parts of the support platform's backend that hold
real logic, and proves properties about them:

- **The priority scorer** (`calculatePriority` in `backend/models/priority.js`).
  It scores a customer on five factors, each worth 0–20 points: tier, account
  age, credit score, income and monthly spend. It caps the total at 100.
  `Priority.CalculatePriority` keeps the source's single mutable accumulator.
  It is proved equal to `Priority.PriorityScore`, the capped sum of five pure
  factor functions. The lemmas in `PriorityProperties` are about that sum.
- **The ranked ticket listing** (`backend/routes/tickets.js`). A module-level
  `priorityqueuejs` queue is seeded with three sample tickets. `GET /` drains
  it into `topTickets` and into a second queue, then drains the second queue
  back. `PriorityQueues.PriorityQueue` models the library class.
  `Tickets.GetTickets` models the handler, with the source's two `while` loops.

Files:
- `wrappers.dfy`: `Option`.
- `priority.dfy`: the scorer.
- `priority_properties.dfy`: the scorer's lemmas.
- `priority_queue.dfy`: the queue.
- `tickets.dfy`: tickets, seeding and the handler.

Modelling choices:
- The database lookup `Pan.findOne` becomes a parameter `pan: Option<Pan>`. `None` means no record.
- The clock read `new Date()` becomes a parameter `now`, in milliseconds. `User.createdAt` is also in milliseconds.
- Account age compares whole milliseconds with `k * 365 * 86400000` for k = 5, 3 and 1. `AgePointsMatchYears` proves this agrees with the source's division into fractional years.
- The library's comparator `cmp` is always of the form `(a, b) => key(a) - key(b)`. The queue stores that `key`.
- Ticket scores such as 8.5 are held in tenths (85).
- Among tickets of equal score, the order in which they are dequeued is left unspecified.

Behaviour of the code worth knowing:
- **Income labels.** A range label is not read as its lower bound. `replace(/[^0-9]/g, "")` keeps every digit, so the digits of both bounds run together. Both "500000-1000000" and "₹5,00,000-10,00,000" give 5000001000000, which scores 20 (`SampleRangeLabel`, `RupeeRangeLabel`, `RangeLabelConcatenates`).
- **Queue operations.** The queue has only `enq`, `deq`, `isEmpty` and `size`. There is no re-score, remove or bounded snapshot, no tie-break, no typed error and no locking.

## Model

| member | source | states |
|---|---|---|
| `Priority.CalculatePriority` | backend/models/priority.js:4-74 | the accumulated score equals the capped sum of the five factors, and it lies between 5 and 100 |
| `Priority.Ladder` | backend/models/priority.js:40-46 | a threshold ladder awards only 0, 10, 15 or 20 points |
| `Priority.TierPoints` | backend/models/priority.js:11-26 | the tier factor is between 5 and 20 points |
| `Priority.AgePoints` | backend/models/priority.js:29-36 | the account-age factor is at most 20 points |
| `Priority.CreditPoints` | backend/models/priority.js:39-47 | the credit factor is at most 20 points |
| `Priority.IncomePoints` | backend/models/priority.js:50-59 | the income factor is at most 20 points |
| `Priority.SpendPoints` | backend/models/priority.js:62-70 | the spend factor is at most 20 points |
| `Priority.Digits` | backend/models/priority.js:51 | stripping non-digits leaves only decimal digits and never lengthens the label |
| `Priority.DecimalValue` | backend/models/priority.js:51 | the value parsed from n digits is below 10^n |
| `Priority.IncomeFigure` | backend/models/priority.js:51 | the parsed figure, with NaN replaced by 0: a label with no digits gives 0, and the figure parsed from n digits is below 10^n |
| `Priority.PriorityScore` | backend/models/priority.js:10-73 | the reference score, `Math.min(100, ...)` over the five factors, always lies between 5 and 100 |
| `PriorityProperties.CapNeverBinds` | backend/models/priority.js:10-73 | the five factors never sum to more than 100, so the `Math.min` cap never changes the score |
| `PriorityProperties.ScoreBounds` | backend/models/priority.js:10-73 | every score is between 5 and 100 |
| `PriorityProperties.ScoreWithoutPan` | backend/models/priority.js:38-70 | with no financial record, credit, income and spend add 0, so the score is tier plus age |
| `PriorityProperties.MaximalProfileScores100` | backend/models/priority.js:11-73 | Premium tier, age of 5 years or more, credit ≥800, income ≥1,000,000 and spend ≥100,000 give exactly 100 |
| `PriorityProperties.UnknownNewCustomerScores5` | backend/models/priority.js:11-36 | an unrecognised or unset tier, an account under one year old and no record give 5 |
| `PriorityProperties.ScoreMonotoneInTime` | backend/models/priority.js:29-36 | a later `now` never lowers the score |
| `PriorityProperties.ScoreMonotoneInCredit` | backend/models/priority.js:40-46 | a higher credit score, or one where none was set, never lowers the score |
| `PriorityProperties.ScoreMonotoneInIncome` | backend/models/priority.js:51-58 | a label that parses to a larger number never lowers the score |
| `PriorityProperties.ScoreMonotoneInSpend` | backend/models/priority.js:62-70 | a higher average monthly spend, or one where none was set, never lowers the score |
| `PriorityProperties.LadderBands` | backend/models/priority.js:40-46 | a ladder gives 20, 15, 10 or 0 exactly on its four intervals (both directions) |
| `PriorityProperties.LadderMonotone` | backend/models/priority.js:40-46 | a ladder is non-decreasing in its input |
| `PriorityProperties.TierTable` | backend/models/priority.js:11-26 | Premium 20, High 15, Medium 10, Low 5; unset or any other value 5 |
| `PriorityProperties.AgeTable` | backend/models/priority.js:30-36 | age of 5 years or more gives 20, 3 to 5 years 15, 1 to 3 years 10, otherwise 0 (365-day years, both directions) |
| `PriorityProperties.YearsAtLeast` | backend/models/priority.js:29 | (elapsed ms) / (ms per 365-day year) ≥ k over the reals exactly when elapsed ≥ k years of milliseconds |
| `PriorityProperties.AgePointsMatchYears` | backend/models/priority.js:29-36 | the millisecond test gives the same points as the source's comparison of fractional years with 5, 3 and 1 |
| `PriorityProperties.CreditTable` | backend/models/priority.js:39-47 | credit ≥800 gives 20, 700–799 15, 600–699 10, below 600 0; an unset score gives 0 |
| `PriorityProperties.IncomeTable` | backend/models/priority.js:50-59 | a parsed income ≥1,000,000 gives 20, ≥500,000 15, ≥200,000 10, otherwise 0 |
| `PriorityProperties.SpendTable` | backend/models/priority.js:62-70 | spend ≥100,000 gives 20, ≥50,000 15, ≥20,000 10, otherwise 0; no spending record or no average gives 0 |
| `PriorityProperties.DigitsOfConcat` | backend/models/priority.js:51 | stripping non-digits distributes over concatenation |
| `PriorityProperties.DigitsOfDigitString` | backend/models/priority.js:51 | a string of digits is left unchanged |
| `PriorityProperties.DigitsOfNonDigitString` | backend/models/priority.js:51 | a string with no digits is stripped to the empty string |
| `PriorityProperties.DecimalValueOfConcat` | backend/models/priority.js:51 | parsing `a + b` gives value(a) · 10^|b| + value(b) |
| `PriorityProperties.DecimalValueOfZeros` | backend/models/priority.js:51 | a run of zeros parses to 0 |
| `PriorityProperties.RangeLabelConcatenates` | backend/models/priority.js:51 | the label "lo-hi" parses to the number whose digits are lo's followed by hi's, not to lo |
| `PriorityProperties.NoDigitsNoIncome` | backend/models/priority.js:51-58 | a label with no digits parses to 0 (the NaN from `parseInt` is replaced by 0) and earns no income points |
| `PriorityProperties.SampleRangeLabel` | backend/models/priority.js:51-58 | "500000-1000000" parses to 5000001000000 and earns 20 |
| `PriorityProperties.RupeeRangeLabel` | backend/models/priority.js:51-58 | "₹5,00,000-10,00,000" parses to 5000001000000 and earns 20 |
| `PriorityQueues.IndexOfHighest` | backend/routes/tickets.js:77 | the scan returns the index of an element whose key is at least every other element's key |
| `PriorityQueues.PriorityQueue.constructor` | backend/routes/tickets.js:7 | a new queue is empty and ranks by the given comparator key |
| `PriorityQueues.PriorityQueue.IsEmpty` | backend/routes/tickets.js:69 | `isEmpty()` is true exactly when no element is queued |
| `PriorityQueues.PriorityQueue.Size` | backend/routes/tickets.js:7 | `size()` is the number of queued elements (the route never calls it) |
| `PriorityQueues.PriorityQueue.Enq` | backend/routes/tickets.js:79 | `enq(x)` adds one copy of x, changes nothing else and returns the new size |
| `PriorityQueues.PriorityQueue.Deq` | backend/routes/tickets.js:77 | `deq()` removes and returns one element whose key is at least every queued element's key; on an empty queue it reports the library's error and changes nothing |
| `Tickets.SourceComparator` | backend/routes/tickets.js:7 | the comparator as written (also at line 74) ranks `a` above `b` exactly when `a` has the lower score; it equals `SourceKey(a) - SourceKey(b)`, the key the as-written queue uses |
| `Tickets.Comparator` | backend/routes/tickets.js:6 | the comparator the comment describes ranks `a` above `b` exactly when `a` has the higher score; it equals `Key(a) - Key(b)`, the key the corrected queue uses |
| `Tickets.SampleTickets` | backend/routes/tickets.js:10-62 | the three seeded tickets, in seed order, with scores 8.5, 9.2 and 7.8 (held in tenths), statuses Completed, In Progress and Open, and distinct ticket ids |
| `Tickets.SeedTicketQueue` | backend/routes/tickets.js:7-65 | the module-level queue holds exactly the three sample tickets |
| `Tickets.ListHighest` | backend/routes/tickets.js:76-80 | appending a ticket of largest remaining key keeps the list ranked, and every ticket still queued ranks no higher than the list's last |
| `Tickets.MoveOne` | backend/routes/tickets.js:82-84 | moving one ticket from one queue to the other keeps their combined contents and shrinks the source queue |
| `Tickets.GetTickets` | backend/routes/tickets.js:68-87 | an empty queue gets "No tickets available" and is left as it was; otherwise `topTickets` is in non-increasing key order and holds every queued ticket exactly once (so its length is the queue's size); afterwards the queue holds the same multiset as before (that the temporary queue ends empty is asserted in the body) |
| `Tickets.RankedOrderOfThree` | backend/routes/tickets.js:76-80 | three tickets with distinct keys have exactly one ranked listing |
| `Tickets.ListSampleTickets` | backend/routes/tickets.js:10-86 | with the intended comparator, the seeded listing is 9.2, 8.5, 7.8, and it includes the "Completed" ticket because nothing is filtered by status |
| `Tickets.ListSampleTicketsAsWritten` | backend/routes/tickets.js:7 | with the comparator as written, the seeded listing is 7.8, 8.5, 9.2: lowest score first |

## Left out

- `Pan.findOne` (Mongoose): database I/O. The financial record is a parameter, and `None` stands for "no record". A lookup that resolves to `null` scores as "no record" (the `if (pan)` tests at lines 39, 50 and 62). A lookup that fails makes the awaited call throw, so `calculatePriority` returns no score; that path is not modelled.
- `new Date()`: clock access. `now` is a parameter. Timestamps are integer milliseconds. An invalid `createdAt` (a NaN date, which scores 0 age points in the code) is not modelled.
- JavaScript floating point: rounding in the age division is not modelled. Timestamps are below 2^53, and the year thresholds are integers, so the double comparison agrees with the exact one that `AgePointsMatchYears` states.
- `parseInt` precision: very long digit strings round, or become `Infinity`, in JavaScript. The model uses exact naturals. Every value concerned is far above the 1,000,000 threshold, so the income factor is the same.
- A missing `income_range`: the code calls `.replace` on it and would throw. The model requires it to be present, as a string.
- Non-numeric `credit_score` or `avg_monthly_spend` values (strings, `null`): these are modelled as `Option<int>`. `null` compares as 0, so it scores the same as an unset value. Fractional spends need no model of their own, because every threshold is an integer.
- The `priorityqueuejs` binary heap: its code is not part of this model. It is modelled over a sequence with a linear scan for the maximum. Only the multiset of queued elements is visible. The model leaves open which of several equal-key elements `deq` returns, and omits the heap's internal order after the refill.
- Express `router` and `res.json`: HTTP plumbing. The handler returns a `Response` value.
- Ticket fields are plain strings and numbers. The ticket lifecycle, persistence and status transitions are not in this code.
- The scorer and the queue are not connected in this code: the route never calls `calculatePriority`, and sample scores use a different scale.
- `Facial-Auth-Module_Flask/app.py` (image decoding, a foreign face-recognition library, float thresholds), `backend/routes/meet.js` (an outbound calendar call), `backend/index.js` (application wiring) and `frontend/src/App.tsx` and `frontend/src/components/service-tickets.tsx` (UI rendering) are not part of this model.

## Findings

| source | as written | input that shows it | evidently intended | confidence | as-written member | corrected member |
|---|---|---|---|---|---|---|
| backend/routes/tickets.js:7 | `priorityqueuejs` dequeues first the element its comparator ranks highest (`cmp(a, b) > 0` puts `a` first). The comparator `(a, b) => b.priorityScore - a.priorityScore`, repeated at line 74, therefore dequeues the lowest score first. | the seeded queue: `GET /` lists 7.8, 8.5, 9.2 | "higher score = higher priority" (comment at line 6): `(a, b) => a.priorityScore - b.priorityScore`, listing 9.2, 8.5, 7.8 | not executed; rests on the library's documented comparator convention, and the library's code is not part of this model | `Tickets.ListSampleTicketsAsWritten` | `Tickets.ListSampleTickets` |
