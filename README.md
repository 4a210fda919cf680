# Klinik Sentosa dashboards — a Dafny model

Klinik Sentosa is a clinic web application. Every signed-in user lands on one of five
role dashboards:

- **patient** (`pasien`): takes a queue number and sends feedback;
- **doctor** (`dokter`): starts and records examinations, writing a prescription and opening a bill;
- **pharmacy** (`petugas_apotek`): adds stock and fills prescriptions;
- **administration** (`petugas_administrasi`): takes payments;
- **owner** (`pemilik_klinik`): sees revenue, counts and ratings.

The dashboards talk to a hosted database through a query client. This project models that
database as one in-memory store. The dashboards' reads become functions over the store's
tables, and their handlers become methods that update the store and the dashboard's own form
state.

Files:

- `schema.dfy` (`Schema`): row shapes of the tables, the status strings and the `user_role`
  enumeration. Every row is a `Row<T>` with the `id` and `created_at` the database fills in.
- `query.dfy` (`Query`): what the query client does on the dashboards' behalf.
  - Filtering and counting: `.eq`, `.in`, `filter(...).length`.
  - Ordering: a generic insertion sort, proved to give a sorted permutation for any total
    preorder.
  - Limiting: `.limit(n)`.
  - Updating one row by primary key.
- `store.dfy` (`Store`): class `ClinicStore`, with one `seq` per table and the id counter.
  - Every write takes `accepted`, the backend's verdict; a rejected write changes nothing.
  - `Valid()` means every table's ids were issued by the store and are unique.
  - `ReferencesIntact()` means each prescription points at an examination, each item at a
    prescription, and each payment at an examination.
- `badge.dfy` (`Badges`): the status badge, a variant plus a text.
- `dashboard_pasien.dfy`, `dashboard_dokter.dfy`, `dashboard_apotek.dfy`,
  `dashboard_administrasi.dfy`: one class per dashboard, holding its form state. Each handler
  is a method; each derived value (lists, counts, badges) is a function.
- `dashboard_pemilik.dfy`: the owner's figures, which only read the store, written as
  functions.
- `dashboard_page.dfy`: the role router.
- `dashboard_layout.dfy`: the role label shown in the header.

Conventions:

- "Today" and "now" are parameters.
- Every write's outcome is a parameter.
- The read of the day's largest queue number may fail; `numberReadOk` says whether it
  returned rows.
- When a form field is required, the handler requires it filled (`Some`).

Adding stock always inserts a new row (`src/components/dashboards/DashboardApotek.tsx:59-66`)
and never increments an existing one, so a topped-up medicine keeps its old low row
(`DashboardApotek.LowStockAppend`).

## Model

| member | source | states |
|---|---|---|
| Schema.ParseRole | src/integrations/supabase/types.ts:425-431 | a role string is recognised exactly when it is one of the five enumeration spellings, and it reads back to the role with that spelling |
| Schema.RoleNameRoundTrip | src/integrations/supabase/types.ts:425-431 | every role's spelling reads back to that role, so distinct roles have distinct spellings |
| Query.Filter | src/components/dashboards/DashboardPasien.tsx:182 | a filter keeps exactly the rows satisfying the condition and never lengthens the table |
| Query.UpdateById | src/components/dashboards/DashboardApotek.tsx:85-88 | `.update(...).eq("id", id)`: same length; the rows carrying the id get the rewrite and keep their id and creation time; every other row is kept as it is, in place |
| Query.Count | src/components/dashboards/DashboardApotek.tsx:133 | a filtered count is 0 exactly when no row passes and equals the table length exactly when every row passes |
| Query.FilterAppend | src/components/dashboards/DashboardApotek.tsx:98-100 | filtering distributes over concatenation of tables |
| Query.FilterCountPermutation | src/components/dashboards/DashboardPasien.tsx:182 | how many rows pass a filter does not depend on the order the listing puts them in |
| Query.FilterCountUpdate | src/components/dashboards/DashboardApotek.tsx:84-88 | rewriting one row by id changes a filtered count only by whether the old and new row pass |
| Query.UpdateSplit | src/components/dashboards/DashboardAdministrasi.tsx:46-54 | an update by id on a well-keyed table rewrites exactly the row with that id and keeps every other row and the order |
| Query.UpdateAbsent | src/components/dashboards/DashboardApotek.tsx:84-88 | an update whose id matches no row changes nothing |
| Query.UpdateIdempotent | src/components/dashboards/DashboardApotek.tsx:84-88 | repeating an update whose rewrite is idempotent changes nothing more |
| Query.WellKeyedAppend | src/components/dashboards/DashboardPasien.tsx:92-97 | rows inserted with fresh ids from the counter keep every id unique and below the counter |
| Query.WellKeyedUpdate | src/components/dashboards/DashboardDokter.tsx:58-62 | an update by id keeps the ids unique |
| Query.SortBySorted | src/components/dashboards/DashboardApotek.tsx:33-38 | ordering by any total preorder yields a sorted sequence |
| Query.SortBy | src/components/dashboards/DashboardApotek.tsx:37 | `.order(...)` returns a permutation of the rows it is given: same multiset, same length |
| Query.SortByMembers | src/components/dashboards/DashboardApotek.tsx:33-38 | ordering keeps exactly the rows it was given, each as often as it was given |
| Query.Take | src/components/dashboards/DashboardPemilik.tsx:59 | `.limit(n)`: the first n rows of the listing, or all of them when there are fewer |
| Query.TextLeTotal | src/components/dashboards/DashboardApotek.tsx:37 | the text order used for names is total |
| Query.TextLeTransitive | src/components/dashboards/DashboardApotek.tsx:37 | the text order used for names is transitive |
| Query.Select | src/components/dashboards/DashboardPasien.tsx:38-42 | a filtered, ordered read returns a sorted permutation of the rows passing the filter |
| Query.TopBy | src/components/dashboards/DashboardPemilik.tsx:53-60 | order then limit: n passing rows (all of them when fewer), none repeated beyond its count among the passing rows (a sub-multiset of them), sorted, and every passing row left out orders after every row kept |
| Query.TakeSorted | src/components/dashboards/DashboardPemilik.tsx:58-59 | the first n rows of a sorted listing are sorted, a sub-multiset of the listing, and precede every row left out |
| Query.AllNewestFirst | src/components/dashboards/DashboardAdministrasi.tsx:28-32 | every row of the table, newest first, as `fetchPayments` lists payments and `fetchPrescriptions` (DashboardApotek.tsx lines 42-54) lists prescriptions |
| Query.NewestN | src/components/dashboards/DashboardPemilik.tsx:64-69 | the n newest rows of a table (all when fewer), a sub-multiset of the table so no row is repeated, newest first, none left out newer than one kept |
| Store.ClinicStore.InsertQueueEntry | src/components/dashboards/DashboardPasien.tsx:92-97 | an accepted insert appends one row with the next id and the default status; a rejected one changes nothing |
| Store.ClinicStore.SetQueueStatus | src/components/dashboards/DashboardDokter.tsx:59-62 | an accepted status update rewrites the row with that id; a rejected one changes nothing |
| Store.ClinicStore.InsertExamination | src/components/dashboards/DashboardDokter.tsx:76-88 | an accepted insert appends one row and returns its new id |
| Store.ClinicStore.InsertPrescription | src/components/dashboards/DashboardDokter.tsx:97-105 | an accepted insert appends one pending prescription and returns its new id |
| Store.ClinicStore.InsertPrescriptionItems | src/components/dashboards/DashboardDokter.tsx:113 | one batch insert appends all item rows with consecutive fresh ids, or none |
| Store.ClinicStore.SetPrescriptionStatus | src/components/dashboards/DashboardApotek.tsx:85-88 | an accepted status update rewrites the prescription with that id; a rejected one changes nothing |
| Store.ClinicStore.InsertPayment | src/components/dashboards/DashboardDokter.tsx:118-124 | an accepted insert appends one payment row |
| Store.ClinicStore.UpdatePayment | src/components/dashboards/DashboardAdministrasi.tsx:46-54 | an accepted update rewrites the payment with that id; a rejected one changes nothing |
| Store.ClinicStore.InsertMedicineStock | src/components/dashboards/DashboardApotek.tsx:59-66 | an accepted insert appends one stock row |
| Store.ClinicStore.InsertFeedback | src/components/dashboards/DashboardPasien.tsx:128-132 | an accepted insert appends one feedback row |
| Store.IntactExtends | src/components/dashboards/DashboardDokter.tsx:97-124 | appending rows whose references point at existing rows keeps every reference intact |
| Store.PrescriptionAppendedIntact | src/components/dashboards/DashboardDokter.tsx:97-105 | a prescription for a recorded examination keeps references intact and becomes a valid target |
| Store.ItemsAppendedIntact | src/components/dashboards/DashboardDokter.tsx:107-114 | items that all carry a recorded prescription's id keep references intact |
| Store.PaymentAppendedIntact | src/components/dashboards/DashboardDokter.tsx:118-124 | a payment billing a recorded examination keeps references intact |
| Store.PrescriptionStatusIntact | src/components/dashboards/DashboardApotek.tsx:85-88 | a prescription status change keeps every reference into and out of the prescriptions table intact |
| Store.PaymentUpdateIntact | src/components/dashboards/DashboardAdministrasi.tsx:46-54 | a payment rewrite that leaves the billed examination alone keeps references intact |
| DashboardPasien.PatientOf | src/components/dashboards/DashboardPasien.tsx:70-74 | the `.single()` lookup yields a patient id exactly when one patient row belongs to the profile, and that row has this id |
| DashboardPasien.OwnQueues | src/components/dashboards/DashboardPasien.tsx:30-46 | with a patient row: exactly that patient's queue rows, each as often as in the table (a permutation of them), newest first; without one: nothing |
| DashboardPasien.OwnExaminations | src/components/dashboards/DashboardPasien.tsx:48-64 | with a patient row: exactly that patient's examinations, each as often as in the table (a permutation of them), latest first; without one: nothing |
| DashboardPasien.TopNumber | src/components/dashboards/DashboardPasien.tsx:83-88 | the day's largest queue number: absent exactly when the day has no rows, otherwise a number of that day no smaller than any other |
| DashboardPasien.NextQueueNumber | src/components/dashboards/DashboardPasien.tsx:90 | 1 on a day without rows; otherwise one more than the day's largest number, so greater than every number of that day |
| DashboardPasien.NumbersOn | src/components/dashboards/DashboardPasien.tsx:83-88 | exactly the numbers handed out on a day |
| DashboardPasien.NextAfterIota | src/components/dashboards/DashboardPasien.tsx:83-90 | when a day holds exactly 1..n, the next number is n + 1 |
| DashboardPasien.SerialRegistration | src/components/dashboards/DashboardPasien.tsx:83-97 | serialized registrations on one day hand out 1..N with no gap and no repeat |
| DashboardPasien.OtherDayRegistration | src/components/dashboards/DashboardPasien.tsx:83-97 | a registration on another day changes neither this day's numbers nor its next number |
| DashboardPasien.ActiveQueueCount | src/components/dashboards/DashboardPasien.tsx:182 | the "Antrian Aktif" count is 0 exactly when no listed row is waiting |
| DashboardPasien.ActiveCountMatchesTable | src/components/dashboards/DashboardPasien.tsx:182 | the count on screen equals the number of the patient's waiting rows in the table |
| DashboardPasien.TodaysQueues | src/components/dashboards/DashboardPasien.tsx:225-231 | exactly the listed rows dated today |
| DashboardPasien.QueueStatusBadge | src/components/dashboards/DashboardPasien.tsx:144-159 | each of the four statuses gets its own label (and only it); an unknown status shows no text; the style is secondary exactly for in progress, outline exactly for completed and cancelled, and default otherwise |
| DashboardPasien.PatientDashboard.RegisterQueue | src/components/dashboards/DashboardPasien.tsx:66-110 | no patient row: nothing written. Rejected insert: complaint kept, nothing written. Success: one row with the patient, the computed number (1 when the read failed), the complaint, today and the default status, and the complaint cleared. `loading` is false on every exit |
| DashboardPasien.PatientDashboard.SubmitFeedback | src/components/dashboards/DashboardPasien.tsx:112-142 | no patient row or a rejected insert: nothing written and the form kept. Success: one row with the form's rating and text, and the form reset to 5 stars and empty text |
| DashboardDokter.DoctorQueue | src/components/dashboards/DashboardDokter.tsx:35-45 | exactly today's waiting or in-progress rows, as a permutation of them, by ascending queue number |
| DashboardDokter.DoctorExaminations | src/components/dashboards/DashboardDokter.tsx:47-56 | ten of the doctor's own examinations (all of them when fewer), a sub-multiset of them so none is repeated, latest first, none left out later than one kept |
| DashboardDokter.StartWithdrawsOffer | src/components/dashboards/DashboardDokter.tsx:58-62 | after starting, that row no longer offers "Mulai Pemeriksaan" and reads "Sedang Diperiksa", stays on today's list when it was there, and every other row's button is as it was |
| DashboardDokter.QueueBadge | src/components/dashboards/DashboardDokter.tsx:196-197 | "Menunggu" in the default style exactly for a waiting row, "Sedang Diperiksa" in the secondary style for any other |
| DashboardDokter.StartOffered | src/components/dashboards/DashboardDokter.tsx:196-203 | the "Mulai Pemeriksaan" button is offered exactly on the rows whose badge reads "Menunggu" |
| DashboardDokter.ValidItems | src/components/dashboards/DashboardDokter.tsx:95-96 | exactly the lines naming a medicine; non-empty exactly when some line names one |
| DashboardDokter.ItemRows | src/components/dashboards/DashboardDokter.tsx:108-111 | one item row per kept line, in order, each carrying the prescription's id and the line's fields |
| DashboardDokter.ExaminationFor | src/components/dashboards/DashboardDokter.tsx:78-86 | the examination copies the queue's complaint and links its patient, the doctor and the queue row |
| DashboardDokter.OpeningPayment | src/components/dashboards/DashboardDokter.tsx:118-124 | the bill is 0, cash, pending and unpaid, for the queue's patient and the new examination |
| DashboardDokter.ExaminationAppended | src/components/dashboards/DashboardDokter.tsx:76-93 | a recorded examination keeps references intact and becomes a valid target for what follows |
| DashboardDokter.DoctorDashboard.StartExamination | src/components/dashboards/DashboardDokter.tsx:58-71 | success: only that row becomes in progress, and the row is selected with the dialog open. Error: queue, selection and dialog unchanged |
| DashboardDokter.DoctorDashboard.AddPrescriptionItem | src/components/dashboards/DashboardDokter.tsx:142-147 | appends exactly one empty line and keeps the others |
| DashboardDokter.DoctorDashboard.SubmitExamination | src/components/dashboards/DashboardDokter.tsx:73-140 | a rejected examination changes nothing. Otherwise: the examination is written first; a prescription only when some line names a medicine and its insert succeeds; its items only after it; a zero cash pending bill for the new examination; the queue row completed; the form reset to one empty line. Ids stay unique and references intact |
| DashboardDokter.DoctorDashboard.Record | src/components/dashboards/DashboardDokter.tsx:76-129 | the submission's writes, stated in terms of the selected row, the form and the kept lines |
| DashboardDokter.DoctorDashboard.RecordExamination | src/components/dashboards/DashboardDokter.tsx:76-93 | the examination insert; on success its id names the new row |
| DashboardDokter.DoctorDashboard.RecordFollowUps | src/components/dashboards/DashboardDokter.tsx:95-129 | prescription and items, bill and queue update, each as its verdict says |
| DashboardDokter.DoctorDashboard.RecordPrescription | src/components/dashboards/DashboardDokter.tsx:95-115 | no prescription without a named line; items only once the prescription is in |
| DashboardDokter.DoctorDashboard.RecordItems | src/components/dashboards/DashboardDokter.tsx:107-114 | the one batch insert of the items, all carrying the new prescription's id |
| DashboardDokter.DoctorDashboard.OpenBill | src/components/dashboards/DashboardDokter.tsx:117-124 | the bill insert; it keeps references intact |
| DashboardApotek.LowStock | src/components/dashboards/DashboardApotek.tsx:98-100 | exactly the rows holding fewer than ten units; a row with ten is not low |
| DashboardApotek.LowStockAppend | src/components/dashboards/DashboardApotek.tsx:98-100 | a new stock row adds one low row exactly when it is itself low; no low row ever leaves |
| DashboardApotek.IsPendingPrescription | src/components/dashboards/DashboardApotek.tsx:171-185 | the condition the "Resep Pending" card counts and the "Isi Resep" button is shown on holds exactly when the badge reads "Pending" |
| DashboardApotek.PendingPrescriptions | src/components/dashboards/DashboardApotek.tsx:133 | 0 exactly when no prescription is pending; all of them exactly when every one is |
| DashboardApotek.PrescriptionBadge | src/components/dashboards/DashboardApotek.tsx:171-177 | "Pending" in the default style exactly for a pending prescription, "Terisi" in the secondary style for any other |
| DashboardApotek.ByName | src/components/dashboards/DashboardApotek.tsx:37 | ordering by medicine name is a total preorder, namely text order on the name |
| DashboardApotek.MedicineList | src/components/dashboards/DashboardApotek.tsx:33-40 | every stock row, ascending by name |
| DashboardApotek.FillIdempotent | src/components/dashboards/DashboardApotek.tsx:84-96 | filling a filled prescription changes nothing |
| DashboardApotek.FillLowersPending | src/components/dashboards/DashboardApotek.tsx:84-88 | filling lowers the pending count by one exactly when the prescription was pending |
| DashboardApotek.NullIfEmpty | src/components/dashboards/DashboardApotek.tsx:64-65 | an empty text is stored as null, any other as it is |
| DashboardApotek.StockRow | src/components/dashboards/DashboardApotek.tsx:59-66 | the stock row copies the form, with empty supplier and expiry date as null |
| DashboardApotek.PharmacyDashboard.AddMedicine | src/components/dashboards/DashboardApotek.tsx:56-82 | success: exactly one new row, never merged, and the form cleared. Error: table and form unchanged |
| DashboardApotek.PharmacyDashboard.FillPrescription | src/components/dashboards/DashboardApotek.tsx:84-96 | the prescription becomes filled whatever its status; no stock row changes; references stay intact |
| DashboardAdministrasi.TotalRevenue | src/components/dashboards/DashboardAdministrasi.tsx:36-39 | with no negative amount the total revenue is not negative; without a completed payment it is 0 |
| DashboardAdministrasi.TotalRevenueConcat | src/components/dashboards/DashboardAdministrasi.tsx:36-39 | revenue adds up over consecutive parts of the table |
| DashboardAdministrasi.RevenueAppend | src/components/dashboards/DashboardAdministrasi.tsx:36-39 | one more payment adds its amount exactly when it is completed |
| DashboardAdministrasi.RevenueOfOne | src/components/dashboards/DashboardAdministrasi.tsx:36-39 | a single payment contributes its amount exactly when it is completed |
| DashboardAdministrasi.RevenueReplace | src/components/dashboards/DashboardAdministrasi.tsx:36-39 | tables differing in one row differ in revenue by that row's contribution |
| DashboardAdministrasi.ProcessedChange | src/components/dashboards/DashboardAdministrasi.tsx:48-53 | the rewrite sets amount, method, completed and the payment time, and keeps patient and examination |
| DashboardAdministrasi.ProcessRaisesRevenue | src/components/dashboards/DashboardAdministrasi.tsx:36-54 | processing a payment that was not completed raises revenue by exactly the amount entered |
| DashboardAdministrasi.IsPendingPayment | src/components/dashboards/DashboardAdministrasi.tsx:137-147 | the condition the "Pembayaran Pending" card counts and the "Proses Bayar" button is shown on holds exactly when the badge reads "Belum Lunas" |
| DashboardAdministrasi.PendingPayments | src/components/dashboards/DashboardAdministrasi.tsx:104 | 0 exactly when no payment is pending; all of them exactly when every one is |
| DashboardAdministrasi.ProcessLowersPending | src/components/dashboards/DashboardAdministrasi.tsx:46-54 | processing a pending payment lowers the pending count by one |
| DashboardAdministrasi.PaymentStatusBadge | src/components/dashboards/DashboardAdministrasi.tsx:67-79 | "Belum Lunas", "Lunas" and "Dibatalkan" exactly for pending, completed and cancelled; any other status has no variant and no label |
| DashboardAdministrasi.AdminDashboard.SelectPayment | src/components/dashboards/DashboardAdministrasi.tsx:138-147 | offered only on a pending payment; selects it and opens the dialog |
| DashboardAdministrasi.AdminDashboard.ChooseMethod | src/components/dashboards/DashboardAdministrasi.tsx:177-193 | the select sets only the method, to one of cash, debit, credit and transfer |
| DashboardAdministrasi.AdminDashboard.ProcessPayment | src/components/dashboards/DashboardAdministrasi.tsx:43-65 | only the selected payment is rewritten. Success: dialog closed, selection dropped, form reset to empty amount and cash. Error: payments, selection, dialog and form unchanged. The form's method stays one the select offers |
| DashboardPemilik.SumAmounts | src/components/dashboards/DashboardPemilik.tsx:36-39 | with no negative amount the sum of the returned rows is not negative |
| DashboardPemilik.RevenueAgrees | src/components/dashboards/DashboardPemilik.tsx:25-39 | the owner's revenue, summed over the completed rows the server returns, equals the administration dashboard's total |
| DashboardPemilik.RevenueAddPayment | src/components/dashboards/DashboardPemilik.tsx:36-39 | one more completed payment of amount X raises the owner's revenue by X; any other leaves it |
| DashboardPemilik.SumAmountsSnoc | src/components/dashboards/DashboardPemilik.tsx:36-39 | the sum grows by the last row's amount |
| DashboardPemilik.AverageRating | src/components/dashboards/DashboardPemilik.tsx:41-43 | 0 without feedback; otherwise the mean, whose product with the count is the sum of ratings |
| DashboardPemilik.SumRatings | src/components/dashboards/DashboardPemilik.tsx:41-43 | with ratings of one to five stars, the sum lies between the count and five times the count |
| DashboardPemilik.AverageRatingBounds | src/components/dashboards/DashboardPemilik.tsx:41-43 | with ratings of one to five stars, a non-empty average lies between 1 and 5 |
| DashboardPemilik.AverageAfterFeedback | src/components/dashboards/DashboardPemilik.tsx:41-43 | new feedback adds one row to the count and its rating to the sum |
| DashboardPemilik.FetchStats | src/components/dashboards/DashboardPemilik.tsx:24-51 | revenue equals the administration total; patients and examinations are the row counts; the average is the mean rating |
| DashboardPemilik.PaidNoEarlier | src/components/dashboards/DashboardPemilik.tsx:58 | descending payment time: a payment without a time may precede any payment, one with a time precedes none without one, and two timed payments go later first |
| DashboardPemilik.LatestPaidFirst | src/components/dashboards/DashboardPemilik.tsx:58 | descending payment time, with a missing time first, is a total preorder |
| DashboardPemilik.RecentPayments | src/components/dashboards/DashboardPemilik.tsx:53-62 | ten completed payments (all of them when fewer), a sub-multiset of them so none is repeated, latest payment first; none left out paid later than one shown |
| DashboardPemilik.RecentFeedback | src/components/dashboards/DashboardPemilik.tsx:64-72 | the ten newest feedback rows (all when fewer), a sub-multiset of the table so none is repeated, newest first, none left out newer than one shown |
| DashboardPage.Route | src/pages/Dashboard.tsx:14-47 | loading gives the spinner; no profile gives the redirect; each of the five roles gives exactly its own dashboard; any other role gives "Role tidak dikenali". Exactly one outcome for every input |
| DashboardLayout.RoleLabel | src/components/DashboardLayout.tsx:19-28 | a role of the `user_role` enumeration shows its fixed label; any string outside it that is not an inherited object key is shown unchanged |
| DashboardLayout.Label | src/components/DashboardLayout.tsx:20-26 | no label is itself the spelling of a role |
| DashboardLayout.LabelsDistinct | src/components/DashboardLayout.tsx:20-26 | the five labels are pairwise distinct, so on known roles the label tells the role |
| DashboardLayout.UnknownRoleMayShareLabel | src/components/DashboardLayout.tsx:27 | outside the enumeration the lookup is not injective: "Pasien" is shown like "pasien" |
| DashboardLayout.HeaderRoleLabel | src/components/DashboardLayout.tsx:59 | a label is shown exactly when the profile has a non-empty role, and it is that role's label |

## Left out

- Query client details: joins of related rows (`patients(*, profiles(...))`) and row-level security. Tables are plain sequences.
- `src/pages/Auth.tsx` (sign-in and sign-up) and `src/pages/Index.tsx` (landing page, with a redirect guard that duplicates the router) are not part of this model.
- Presentation is left out: rendering, toasts, dialogs as widgets, tabs, and the view-state lists the dashboards refetch after a write.
- The pharmacy's `selectedPrescription` and `isDialogOpen` state is left out: no handler reads it.
- Dates: `toISOString().split("T")[0]` and `toLocaleDateString` are left out. "Today" and "now" are parameters.
- Numbers: `parseInt`/`parseFloat` of form text, JavaScript floating-point sums and division, and `toFixed` are left out. Amounts, prices and quantities are integers; the average rating is an exact `real`.
- DashboardAdministrasi.TotalRevenue: models the sum with exact integers, not floating-point additions. `p.amount || 0` is the amount itself, since the column is never null and `0 || 0` is 0.
- DashboardPemilik.AverageRating: models the mean as an exact `real`, not a rounded floating-point quotient.
- Text order: the database's collation for `order("medicine_name")` is left out. Names are ordered by code point.
- Ties under `order(...)`: the database returns tied rows in an unspecified order. The model fixes one order (that of the insertion sort) and proves only what every tie-break shares: sortedness, membership, multiplicity and the limit.
- Status columns that the queue and prescription inserts leave out are optional in the insert types (`src/integrations/supabase/types.ts:167`, `src/integrations/supabase/types.ts:350`). The model assumes the database defaults them to `waiting` and `pending` (`Store.DefaultQueueStatus`, `Store.DefaultPrescriptionStatus`); no file in the repository shows those defaults. Likewise the examination insert (`src/components/dashboards/DashboardDokter.tsx:76-88`) sends no `examination_date`, which is optional in the insert type (`src/integrations/supabase/types.ts:36`); the model assumes it defaults to the insertion time (`DashboardDokter.ExaminationFor`), and that date orders `DashboardDokter.DoctorExaminations` and `DashboardPasien.OwnExaminations`.
- DashboardLayout.RoleLabel: `labels[role] || role` also finds keys inherited from `Object.prototype`. "constructor" or "toString" would give a function, and "__proto__" the prototype object; the model shows such strings unchanged. The same holds for the `variants[status]` and `labels[status]` lookups behind `DashboardPasien.QueueStatusBadge` and `DashboardAdministrasi.PaymentStatusBadge`. A role always comes from the `user_role` enumeration and a status from the handlers' own strings, so these keys do not reach the lookups.
- `paid_at` ordering puts a missing payment time first, as PostgreSQL does for a descending order.
- Read failures are left out, except the read of the day's largest queue number, whose failure branch (number 1) is modelled.
- Concurrency is left out: the read-largest-then-insert race between sessions, and other sessions' writes between the steps of the examination sequence. Execution is sequential.
- DashboardPasien.PatientDashboard.RegisterQueue: `loading` is stated false on every exit. That it is true while the handler waits is not observable in a sequential model.
- Columns the dashboards never read or write are omitted from the row shapes. Examples are the patients' demographic columns and `updated_at`.
- Primary keys are uuids in the database. The model issues them as natural numbers from a counter, because only their uniqueness matters.
