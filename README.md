# Tutoring-centre student and payment management: a verified model

The application keeps a tutoring centre's students (`élèves`) and their
monthly payments (`paiements`). This project models its business logic in
Dafny and proves what that logic promises. The modelled parts are:

- the dashboard figures: the counts, the total collected, the students per
  level and the payments per month;
- the monthly tracking grid: whether a student paid for a month, the first
  such payment, and the paid / unpaid / all filter with its counts;
- the student and payment pages: the name search, the lookups of a
  payment's student, and the forms with their guards and state changes;
- the small utilities: Arabic-script detection, the empty case of date
  formatting, and the `REC-YYYYMMDD-xxxxxx` receipt number;
- the browser-storage layer: completing records before saving them, and
  seeding an empty store.

Layout, one module per file:

- `common.dfy` (`Common`): `Option`, and the list operations the components
  use (`filter`, `some`, `find`) with what they guarantee.
- `text.dfy` (`Text`): the JavaScript string operations relied on. These are
  `trim`, ASCII lower-casing, `includes`, `String(n)` for integers, and
  `parseInt`/`parseFloat` on integer text.
- `records.dfy` (`Records`): the `Eleve` and `Paiement` records, the `||`
  default, and the twelve month labels.
- `helpers.dfy` (`Helpers`): `isArabic`, `formatDate`, `generateReceiptNumber`.
- `grouping.dfy` (`Grouping`): the object a `reduce` builds with
  `acc[k] = (acc[k] || 0) + v`, as keys in first-seen order plus a map.
- `dashboard.dfy` (`Dashboard`): `totalEleves`, `totalPaiements`,
  `totalEncaisse`, and the loops `repartitionNiveau` and `paiementsParMois`.
  Each loop is proved against a fold over the list.
- `monthlytracking.dfy` (`MonthlyTracking`): `years`, `hasPaiement`,
  `getPaiement`, `filteredEleves`, `stats`.
- `eleveslist.dfy` (`ElevesList`): the search, and the page state as the
  class `FormState` with the fields `formData`, `editingEleve` and `showForm`.
- `paiementslist.dfy` (`PaiementsList`): the search, `getEleveName`,
  `getEleveNiveau`, and the page state as the class `FormState` with the
  fields `formData`, `editingPaiement`, `showForm` and `selectedReceipt`.
- `storage.dfy` (`Storage`): the record completion, and the store as the
  class `LocalStore` holding a map from key to stored list.

Conventions:

- The model treats a missing string field of a record as the empty string.
  Most readers in the application treat the two alike; the level grouping
  and the name search do not (see "Left out").
- An amount is `Option<int>`: the number read from the stored value, or
  `None` when no number can be read (NaN).
- Outside effects are parameters:
  - `today` for the clock's date;
  - `confirmed` for the answer to a confirmation dialog;
  - `added` for what the add callback returns;
  - `refused` for a write the browser rejects.
- An `alert` is a returned message. A call to the application's callbacks
  is a returned value.
- `totalEleves` and `totalPaiements` are the list lengths
  (`Dashboard.TotalEleves`, `Dashboard.TotalPaiements`).
- The dashboard's figures are computed from list values, so its inputs
  cannot be changed by computing them.
- The monthly grid's year selector is only displayed. No modelled operation
  takes the selected year, as in the source: the filter and the counts do
  not depend on it.

## Model

| member | source | states |
|---|---|---|
| Helpers.IsArabic | src/utils/helpers.js:4-7 | Absent or empty text is not Arabic; any other text is Arabic exactly when one of its characters lies in U+0600..U+06FF |
| Helpers.FormatDate | src/utils/helpers.js:18-26 | Absent or empty input gives the empty string; other input is the locale's long-date rendering of it |
| Helpers.PadTwo | src/utils/helpers.js:32-33 | The padded number has at least two digits; a number below 100 becomes exactly two digits that read back as the number |
| Helpers.SliceLast | src/utils/helpers.js:34 | `slice(-6)` keeps the last six characters, or the whole text when it is shorter |
| Helpers.ReceiptNumber | src/utils/helpers.js:29-35 | The number starts with `REC-`, has at least ten characters, and ends with a dash followed by the id's last six characters (all of them when the id prints shorter) |
| Helpers.ReceiptLayout | src/utils/helpers.js:29-35 | The receipt number is `REC-`, the year, the month (1..12) and day as two digits each, a dash, then the id's last six characters; each field can be read back |
| Helpers.ConcatLayout | src/utils/helpers.js:34 | Where each piece of the receipt template sits in the joined text |
| Helpers.ReceiptDeterminesDate | src/utils/helpers.js:29-35 | For one payment, equal receipt numbers mean equal generation dates: the number depends on the date |
| Helpers.ReceiptSharedSuffix | src/utils/helpers.js:34 | Two ids with the same last six characters get the same number on the same day: the number is not unique |
| Helpers.ReceiptExample | src/utils/helpers.js:29-35 | Payment 123456789 on 5 March 2024 gets `REC-20240305-456789` |
| Text.Trim | src/components/ElevesList.jsx:27 | The trimmed text neither starts nor ends with white space, and it is empty exactly when the text is all white space |
| Text.TrimIsMiddle | src/components/ElevesList.jsx:27 | The trimmed text is a slice of the text, and everything outside that slice is white space |
| Text.Lower | src/components/ElevesList.jsx:19-20 | Lower-casing keeps the length and lowers each character |
| Text.Includes | src/components/ElevesList.jsx:21 | `includes` holds exactly when the term occurs at some position |
| Text.NatToStringRoundTrip | src/utils/helpers.js:32-34 | Reading back the digits `String(n)` prints gives `n` |
| Text.ParseInt | src/components/PaiementsList.jsx:58-59 | `parseInt`/`parseFloat` read a number only when the text holds a digit |
| Text.ParseIntRoundTrip | src/components/PaiementsList.jsx:92-93 | Parsing the text an integer prints as gives the integer back |
| Text.ParseNaN | src/components/PaiementsList.jsx:93 | The text NaN prints as reads back as NaN |
| Records.OrElse | src/components/ElevesList.jsx:52-55 | `s || d` is `s` when `s` is non-empty, and `d` when `s` is empty |
| Common.Filter | src/components/ElevesList.jsx:18 | `filter` returns an order-preserving subsequence holding exactly the elements that pass the test |
| Common.FilterPartition | src/components/MonthlyTracking.jsx:57-62 | Filtering on a test and on its negation splits the list: the lengths add up to its length |
| Common.Any | src/components/MonthlyTracking.jsx:30-32 | `some` holds exactly when some element passes the test |
| Common.Find | src/components/MonthlyTracking.jsx:37 | `find` gives nothing exactly when no element passes; otherwise it gives the first element that passes |
| Grouping.TalliedSnoc | src/components/Dashboard.jsx:11-14 | Folding one more entry is one more `acc[k] = (acc[k] || 0) + v` step on the object built so far |
| Grouping.BumpTotal | src/components/Dashboard.jsx:12 | One `acc[k] = (acc[k] || 0) + v` step keeps the object well formed and adds `v` to the sum of its values |
| Grouping.TalliedTotal | src/components/Dashboard.jsx:11-14 | The object built from `{}` has each key once, and its values add up to the sum of all entries |
| Grouping.TalliedKeys | src/components/Dashboard.jsx:11-14 | Its keys are exactly the keys the entries carry |
| Grouping.TalliedValues | src/components/Dashboard.jsx:11-14 | The value under each key is the sum of that key's entries |
| Dashboard.TotalEleves | src/components/Dashboard.jsx:6 | The number of students equals the sum of the students-per-level figures |
| Dashboard.TotalPaiements | src/components/Dashboard.jsx:7 | Every payment is counted, the readable amounts plus the unreadable ones |
| Dashboard.TotalEncaisseConcat | src/components/Dashboard.jsx:8 | The total collected over two lists of payments is the sum of their totals |
| Dashboard.TotalEncaisseAppend | src/components/Dashboard.jsx:8 | A further payment adds its amount, or 0 when unreadable, to the total collected |
| Dashboard.TotalEncaisseOfReadable | src/components/Dashboard.jsx:8 | The total collected equals the sum over the payments whose amount can be read |
| Dashboard.UnreadableAmountCounts | src/components/Dashboard.jsx:7-8 | A payment with an unreadable amount adds one to the payment count and nothing to the total |
| Dashboard.LevelEntriesSums | src/components/Dashboard.jsx:11-14 | The entries folded per level sum, for a level, to the number of its students |
| Dashboard.LevelEntriesTotal | src/components/Dashboard.jsx:11-14 | All level entries together sum to the number of students |
| Dashboard.RepartitionFacts | src/components/Dashboard.jsx:11-14 | The fold per level has each level once. Its keys are exactly the levels that occur, each value is the number of students of that level, and the values sum to the number of students |
| Dashboard.RepartitionNiveau | src/components/Dashboard.jsx:11-14 | The loop builds the fold's result: keys exactly the occurring levels, each value the number of students of that level, values summing to `totalEleves` |
| Dashboard.MoisKey | src/components/Dashboard.jsx:18 | A payment is grouped under its month, and never under the empty key: a missing month gives `Non spécifié` |
| Dashboard.MonthEntriesSums | src/components/Dashboard.jsx:17-21 | The entries folded per month sum, for a group, to the total collected over that group's payments |
| Dashboard.MonthEntriesTotal | src/components/Dashboard.jsx:17-21 | All month entries together sum to the total collected |
| Dashboard.ParMoisKeys | src/components/Dashboard.jsx:17-21 | The fold per month has each group once, and its keys are exactly the groups the payments fall in. A payment without a month puts `Non spécifié` among them |
| Dashboard.ParMoisValues | src/components/Dashboard.jsx:17-21 | Each value of the fold per month is its group's total, and the values sum to `totalEncaisse` |
| Dashboard.PaiementsParMois | src/components/Dashboard.jsx:17-21 | The loop builds the fold's result. Every payment counts under its month, or under `Non spécifié` when it has none, so none is dropped. Each value is its group's total, and the values sum to `totalEncaisse` |
| MonthlyTracking.Years | src/components/MonthlyTracking.jsx:26 | Five consecutive ascending years, from two before the current year to two after |
| MonthlyTracking.HasPaiement | src/components/MonthlyTracking.jsx:29-33 | True exactly when some payment has this student id and this month, both compared exactly |
| MonthlyTracking.GetPaiement | src/components/MonthlyTracking.jsx:36-38 | Defined exactly when `hasPaiement` holds, and then the first matching payment in list order |
| MonthlyTracking.PaidForSome | src/components/MonthlyTracking.jsx:45 | `months.some(hasPaiement)` holds exactly when one of the student's payments carries one of those months |
| MonthlyTracking.PaidSomeMonth | src/components/MonthlyTracking.jsx:45 | A student counts as paid exactly when one of its payments carries one of the twelve month labels; other labels never count |
| MonthlyTracking.FilteredEleves | src/components/MonthlyTracking.jsx:41-52 | The shown students are an order-preserving subsequence; under `payes` all paid, under `nonPayes` all unpaid |
| MonthlyTracking.FilterAllStudents | src/components/MonthlyTracking.jsx:41-52 | `tous`, and any value other than `payes` and `nonPayes`, shows the list unchanged |
| MonthlyTracking.FilterPaidStudents | src/components/MonthlyTracking.jsx:43-50 | `payes` keeps exactly the paid students and `nonPayes` exactly the others |
| MonthlyTracking.PaidUnpaidDisjoint | src/components/MonthlyTracking.jsx:43-50 | No student is in both the paid and the unpaid list |
| MonthlyTracking.ComputeStats | src/components/MonthlyTracking.jsx:55-63 | `payes + nonPayes == total == |eleves|`, and each count is the length of the matching filtered list |
| ElevesList.NameMatchesCaseInsensitive | src/components/ElevesList.jsx:19-21 | With ASCII lower-casing, the search keeps a name exactly when its lower-cased form contains the lower-cased term, so the verbatim test adds nothing |
| ElevesList.FilteredEleves | src/components/ElevesList.jsx:18-22 | The result is an order-preserving subsequence. A student is in it exactly when its lower-cased name contains the lower-cased term, and a name holding the term verbatim is kept |
| ElevesList.EmptySearchKeepsAll | src/components/ElevesList.jsx:18-22 | An empty search term keeps every student |
| ElevesList.FormOf | src/components/ElevesList.jsx:51-56 | Editing loads name and level as they are, the date or today when it is missing, and the course type or `classe` when it is missing |
| ElevesList.FormOfComplete | src/components/ElevesList.jsx:51-56 | A student with every field filled in is loaded unchanged |
| ElevesList.Submit | src/components/ElevesList.jsx:27-37 | Refused with the warning exactly when the trimmed name or level is empty; otherwise the form is sent unchanged, as an update of the edited student's id, or as an add when nothing is being edited |
| ElevesList.BlankFormRejected | src/components/ElevesList.jsx:27-30 | A freshly opened or reset form is refused |
| ElevesList.EditThenSubmit | src/components/ElevesList.jsx:25-58 | Editing a complete student and submitting unchanged sends its own fields back under its id |
| ElevesList.FormState.constructor | src/components/ElevesList.jsx:7-15 | The page starts with a blank form, nothing being edited and the form hidden |
| ElevesList.FormState.OpenAddForm | src/components/ElevesList.jsx:109-118 | The add button shows a blank form with nothing being edited |
| ElevesList.FormState.Type | src/components/ElevesList.jsx:150-199 | Typing changes one field of the form and nothing else |
| ElevesList.FormState.HandleSubmit | src/components/ElevesList.jsx:25-46 | A refused submit changes nothing and sends nothing. A sent one issues `Submit`'s call, resets the form, ends the edit and hides the form. A student is only ever edited in a visible form, so an update is only sent from a visible form |
| ElevesList.FormState.HandleEdit | src/components/ElevesList.jsx:48-58 | The student becomes the one edited, its fields fill the form, and the form is shown |
| ElevesList.FormState.HandleDelete | src/components/ElevesList.jsx:60-73 | A student with a payment is never deleted, and the user is warned; otherwise the deletion happens exactly when the user confirms |
| ElevesList.FormState.HandleCancel | src/components/ElevesList.jsx:75-84 | The form is reset and hidden, and the edit ends |
| PaiementsList.FindEleve | src/components/PaiementsList.jsx:27 | No student exactly when no id matches; otherwise the first student with that id |
| PaiementsList.GetEleveName | src/components/PaiementsList.jsx:35-38 | `Élève supprimé` for an unknown id, otherwise the first matching student's name |
| PaiementsList.GetEleveNiveau | src/components/PaiementsList.jsx:41-44 | The empty string for an unknown id, otherwise the first matching student's level |
| PaiementsList.FilteredPaiements | src/components/PaiementsList.jsx:26-32 | An order-preserving subsequence. A payment is in it exactly when its student exists and that student's name matches the term, so a payment whose student is gone is never listed |
| PaiementsList.EmptySearchShowsKnown | src/components/PaiementsList.jsx:26-32 | With an empty term the list is exactly the payments whose student exists |
| PaiementsList.DraftOf | src/components/PaiementsList.jsx:57-69 | The month and date are sent as typed; the student id and amount are numbers read from the text, present only if it holds a digit |
| PaiementsList.AmountText | src/components/PaiementsList.jsx:93 | The amount loaded into the form is never empty text |
| PaiementsList.AmountTextRoundTrip | src/components/PaiementsList.jsx:93 | The printed amount reads back as the amount, and NaN prints as text that reads back as NaN |
| PaiementsList.FormOf | src/components/PaiementsList.jsx:89-98 | Editing loads the id and amount as non-empty text, the month as it is, and the date or today when it has none |
| PaiementsList.FormOfRoundTrip | src/components/PaiementsList.jsx:89-98 | Reading back the form that editing loads gives the payment's own student, amount, month and date |
| PaiementsList.Submit | src/components/PaiementsList.jsx:47-73 | Refused exactly when the student, amount or month text is empty, with no trimming, so `0` passes. Otherwise the form is sent, as an update of the edited payment's id or as an add; the payment handed over is the form read by `DraftOf` |
| PaiementsList.EditThenSubmit | src/components/PaiementsList.jsx:56-63 | Editing a payment that has a month and submitting unchanged sends it back as itself under its id |
| PaiementsList.FormState.constructor | src/components/PaiementsList.jsx:14-23 | The page starts with a blank form, nothing edited, the form hidden and no receipt open |
| PaiementsList.FormState.OpenAddForm | src/components/PaiementsList.jsx:156-165 | The add button shows a blank form with nothing being edited |
| PaiementsList.FormState.Type | src/components/PaiementsList.jsx:198-256 | Typing changes one field of the form and nothing else |
| PaiementsList.FormState.HandleSubmit | src/components/PaiementsList.jsx:47-87 | A refused submit changes nothing and sends nothing. A sent one issues `Submit`'s call, resets and hides the form, and ends the edit. A new payment opens its receipt only when the add callback returned it with an id. An update is only sent from a visible form |
| PaiementsList.FormState.HandleEdit | src/components/PaiementsList.jsx:89-98 | The payment becomes the one edited, its fields fill the form, the form is shown, and the open receipt is kept |
| PaiementsList.FormState.HandleDelete | src/components/PaiementsList.jsx:100-104 | The payment is deleted exactly when the user confirms |
| PaiementsList.FormState.HandleCancel | src/components/PaiementsList.jsx:106-115 | The form is reset and hidden, the edit ends, and the open receipt is kept |
| PaiementsList.FormState.ShowReceipt | src/components/PaiementsList.jsx:344 | The row's payment becomes the open receipt; the form is untouched |
| PaiementsList.FormState.CloseReceipt | src/components/PaiementsList.jsx:379 | The receipt closes; the form is untouched |
| Storage.Or | src/utils/storage.js:44-47 | `v || d` for a property that may be missing: `d` when it is missing or empty, otherwise the value itself |
| Storage.CompleteEleve | src/utils/storage.js:42-48 | Keeps the id. A missing name or level becomes empty, a missing date today, a missing course type `classe`. Present values are kept |
| Storage.CompleteEleves | src/utils/storage.js:42-48 | Same length, and each element is completed in place, so the ids keep their order |
| Storage.CompletePaiement | src/utils/storage.js:64-70 | Keeps id, student id and amount. A missing month becomes empty and a missing date today |
| Storage.CompletePaiements | src/utils/storage.js:64-70 | Same length, and each element is completed in place |
| Storage.CompleteEleveKeepsComplete | src/utils/storage.js:42-48 | A student with date and course type filled in is saved as it is |
| Storage.CompleteElevesIdempotent | src/utils/storage.js:39-53 | Saving a saved list of students again stores the same list |
| Storage.CompletePaiementsIdempotent | src/utils/storage.js:61-75 | Saving a saved list of payments again stores the same list |
| Storage.SeedIsComplete | src/utils/storage.js:21-27 | The seed students are complete: saving them changes nothing |
| Storage.SeedIds | src/utils/storage.js:21-27 | The five seed students have the ids 1 to 5 in order |
| Storage.LocalStore.constructor | src/utils/storage.js:3-7 | A first visit starts with an empty store |
| Storage.LocalStore.GetEleves | src/utils/storage.js:30-37 | The stored students are returned without writing. An empty key is first seeded with the five initial students, which are returned |
| Storage.LocalStore.SaveEleves | src/utils/storage.js:39-53 | The completed list replaces the stored students and no other key changes; a refused write changes nothing |
| Storage.LocalStore.GetPaiements | src/utils/storage.js:56-59 | The stored payments, or the empty list; the store is never written |
| Storage.LocalStore.SavePaiements | src/utils/storage.js:61-75 | The completed list replaces the stored payments and no other key changes; a refused write changes nothing |
| Storage.LocalStore.GetNiveaux | src/utils/storage.js:78-85 | The stored levels are returned without writing. An empty key is first seeded with the seven default levels, which are returned |
| Storage.LocalStore.SaveNiveaux | src/utils/storage.js:87-89 | The given levels replace the stored ones, and no other key changes |
| Storage.SaveThenGetNiveaux | src/utils/storage.js:78-89 | `getNiveaux` after `saveNiveaux(xs)` returns `xs` and writes nothing more |
| Storage.ReadTwiceFromEmpty | src/utils/storage.js:30-37 | On a new store, the first and second `getEleves` both return the five seed students |
| Storage.SaveThenGetEleves | src/utils/storage.js:30-53 | `getEleves` after `saveEleves(xs)` returns the completed `xs`: same length and same ids. Other keys are untouched |

## Left out

- The markup, styles and icons of every component. Also left out: the navigation sidebar, and the receipt window with its printing and PDF export.
- The remote database client and the application shell are not part of this model. That covers asynchronous loading, reloading after each change, and loading flags.
- In the shell, the update handlers take one argument, but both list pages call them with an id and the data. The model stops at the call each page makes.
- The shell's add handler for payments returns a pending promise, which has no id. So with that shell, a new payment never opens its receipt. `PaiementsList.FormState.HandleSubmit` takes what the callback returns as its `added` parameter and covers both cases.
- `formatCurrency`, and `formatDate`'s rendering of a non-empty date: both depend on locale data. The rendering is the parameter `longDate`.
- Text.ParseInt: reads integer text only. Fractions, exponents, `Infinity` and hexadecimal are not modelled, so amounts are whole numbers. Also not modelled: floating-point sums and the difference between `parseInt` and `parseFloat` on such text.
- Text.Lower: lowers the ASCII letters only. Full Unicode case mapping, e.g. of accented capitals, is not modelled.
- The objects built by the two dashboard folds start from `{}`, so they inherit the keys of `Object.prototype`. A level or month named `constructor`, `toString` or `valueOf` would get a text value there instead of a number, and `__proto__` would be dropped. `Grouping` does not model these inherited keys. The fixed lists of levels and months never produce them.
- ElevesList.NameMatchesCaseInsensitive: the verbatim test is redundant only under the model's ASCII lower-casing. With JavaScript's full `toLowerCase` it is not: `"ΑΣ"` lowers to `"ας"` with a final sigma, which does not contain `"σ"`, the lower-cased `"Σ"`, yet `"ΑΣ".includes("Σ")` holds.
- JavaScript lists an object's integer-like keys (such as a level named `"2"`) first and in numeric order. `Grouping` keeps every key in first-seen order.
- A student record without a `niveau` property is grouped in the source under the key `undefined`. The model has no missing fields, only empty ones, so an empty level is its own key. Saved records always carry the property, because saving completes them.
- A student record without a `nom` property makes the source's name search throw. Saved records always carry one, and the model treats a missing name as empty.
- Type confusions are not modelled:
  - an id stored as text rather than a number, which the source's strict `===` tells apart;
  - `null` amounts, which make the payment edit throw.
- The JSON encoding of the stored lists: the store holds the lists themselves.
- An exception from a write in `getEleves`, `getNiveaux` or `saveNiveaux`: the source does not catch these there.
- `generateId`, which depends on the clock and on randomness. Ids are plain integers.
- The clock itself: every use of the current date is a parameter.
