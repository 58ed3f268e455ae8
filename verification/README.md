# PetAgende — a Dafny model of the booking app's screen logic

PetAgende is a React app for booking pet services: grooming, vets, pet
shops. It sits on top of a hosted database. This project models the logic
that lives inside its screens and hooks, and proves properties of that
model:

- **Booking calendar.** The calendar reads an `HH:MM` start time and adds
  the service's duration in minutes. It writes the end time back as a
  zero-padded `HH:MM`, builds the `2025-06-DD` date and inserts one
  appointment row.
- **Sign-up form.** CPF (Brazilian taxpayer number) validation, the
  `ddd.ddd.ddd-dd` mask, and the order of the checks before `onSignUp`.
- **`usePets` hook.** The local pet list is updated after insert, update and
  delete. An error leaves it unchanged.
- **`useServices` hook.** Two service queries, and the filter by pet species.
- **Home and search screens.** Home filters by name, ignoring case.
  Establishment cards fall back to a default photo and address. Search
  has a trigger effect, request conditions, a category toggle, a clear
  button and plural headings.
- **Page and booking wizard.** `Index` holds a page tag, the auth page and
  the chosen pet and service ids. The pet and service steps hand their
  selections to it.
- **Forms.** The review form (stars, hover preview, submit guards), the pet
  registration form (field updates, validity, payload normalisation) and
  the profile form (edit, cancel, save, display fallbacks).

The model's conventions:

- Every backend or auth call is a parameter of type `Outcome<T>`
  (`Ok(value)` or `Err`). The model states what the screen does with each
  reply.
- Screens are immutable records. Their handlers are pure transition
  functions.
- JavaScript details are written out explicitly:
  - `%` truncates toward zero (`TimeWindow.JsRem`).
  - `Math.floor(x / 60)` is Dafny's `/` for a positive divisor.
  - `x || y` and `x || undefined` follow truthiness, so `""` is falsy
    (`Wrappers.OrElse`, `Wrappers.NonEmpty`).
  - `trim` removes the ECMAScript white-space set (`Text.Trim`).
  - `toLowerCase` is modelled for ASCII only (`Text.Lower`).

Layout: one module per source file. Six further modules hold shared pieces
and examples:

- `Wrappers`: optional values, backend outcomes, truthiness.
- `Seqs`: filter, find, subsequence.
- `Text`: digits, case, substrings, trimming, number printing, `padStart`,
  `split`.
- `Records`: the database rows.
- `TimeWindow`: the time arithmetic of the calendar.
- `TimeExamples`: two worked appointment windows, one of them running past
  midnight.

## Model

| member | source | states |
|---|---|---|
| Wrappers.Refresh | src/hooks/usePets.ts:43-46 | a select's reply replaces the shown rows, `null` data counts as `[]`, and an error keeps the rows shown before |
| Text.Digits | src/components/auth/SignUp.tsx:24 | removing non-digits leaves only digits and never lengthens the string |
| Text.TrimEmptyIffBlank | src/components/search/Search.tsx:50 | `trim()` yields `""` exactly when every character is white space |
| TimeWindow.FormatClock | src/components/booking/CalendarBooking.tsx:57 | the written clock is at least five characters long and, for a minute field below 100, ends in `:` and the minute's two digits |
| TimeWindow.ParseTime | src/components/booking/CalendarBooking.tsx:56 | splitting at `:` and reading two digit runs gives non-negative hour and minute fields |
| TimeWindow.JsRem | src/components/booking/CalendarBooking.tsx:60 | JavaScript `%` is what is left of the dividend after the quotient truncated toward zero: it keeps the sign of the dividend, with magnitude below the divisor |
| TimeWindow.JsRemUnique | src/components/booking/CalendarBooking.tsx:60 | those three facts pin the remainder down: any quotient and remainder meeting them are the truncating ones |
| TimeWindow.EndClock | src/components/booking/CalendarBooking.tsx:58-60 | when the minute sum is non-negative, the end lies exactly `duracao` minutes after the start, its minute field is in 0..59, and its hour is never below the start hour |
| TimeWindow.ClockText | src/components/booking/CalendarBooking.tsx:57 | a clock with fields below 100 is written as the five characters `HH:MM` |
| TimeWindow.ReadPadded | src/components/booking/CalendarBooking.tsx:57 | a zero-padded `toString` of a non-negative number reads back as that number |
| TimeWindow.SplitAtColon | src/components/booking/CalendarBooking.tsx:56 | `split(':')` on `a:b` with no colon in `a` or `b` gives exactly `[a, b]` |
| TimeWindow.FormatThenParse | src/components/booking/CalendarBooking.tsx:56-57 | writing any clock with non-negative fields and reading it back gives the clock |
| TimeWindow.TextRoundTrip | src/components/booking/CalendarBooking.tsx:56-57 | a five-character `HH:MM` string reads as its clock, and writing that clock gives the same string |
| TimeWindow.FixedTimeEntry | src/components/booking/CalendarBooking.tsx:25 | each entry of the fixed time list reads as the matching clock and is written back unchanged |
| TimeWindow.FixedTimesRoundTrip | src/components/booking/CalendarBooking.tsx:56-57 | for every entry of the time list at line 25, parsing and then re-formatting reproduces the entry |
| TimeWindow.EndTimeRoundTrip | src/components/booking/CalendarBooking.tsx:56-60 | the stored end time reads back as a clock exactly `duracao` minutes after the start, with the hour not wrapped and a two-digit minute field in 0..59 |
| TimeWindow.DeriveWindow | src/components/booking/CalendarBooking.tsx:56-60 | a window exists exactly when the start time reads as a clock; its start string reads as the same clock, and for a non-negative duration its end string reads as the clock `duracao` minutes later |
| TimeExamples.WindowExampleAfternoon | src/components/booking/CalendarBooking.tsx:56-60 | `14:30` plus 45 minutes is stored as `14:30`–`15:15` |
| TimeExamples.WindowExampleMidnight | src/components/booking/CalendarBooking.tsx:58-60 | `23:50` plus 30 minutes ends at `24:20`; nothing rolls over past midnight |
| CalendarBooking.DateStringShape | src/components/booking/CalendarBooking.tsx:70 | for days 1..30 the date `DateString` writes is `2025-06-` followed by exactly two digits that read as the day, with a leading `0` exactly below 10 |
| CalendarBooking.ClickDay | src/components/booking/CalendarBooking.tsx:30-33 | a click on a day below 10 (a disabled button, line 142) changes nothing; any other click selects the day and clears the time |
| CalendarBooking.ClickTime | src/components/booking/CalendarBooking.tsx:35-37 | a time click sets the time and keeps the date |
| CalendarBooking.Book | src/components/booking/CalendarBooking.tsx:39-86 | nothing happens without a date, a time and a user; a lookup error stops before the insert; the row has the user, pet, service, the service's establishment and price, status `agendado`, the `2025-06-DD` date and the chosen start time; `onBook` gets `D/06/2025` and the time only when both calls succeed |
| CalendarBooking.AppointmentRow | src/components/booking/CalendarBooking.tsx:56-75 | the row takes the establishment and price from the service; its start string reads back as the start clock, and for a non-negative duration its end string reads back as a clock `duracao` minutes later with a minute in 0..59 |
| CalendarBooking.OfferedTimeReads | src/components/booking/CalendarBooking.tsx:25 | every offered start time parses, and re-formatting gives the same string |
| CalendarBooking.ClicksKeepWellFormed | src/components/booking/CalendarBooking.tsx:17-37 | the initial state and every day or time click keep the date enabled and the time either unset or an offered entry chosen after a date |
| CalendarBooking.NewDayDisablesBooking | src/components/booking/CalendarBooking.tsx:30-33 | after a new day is chosen, the book button is disabled until a time is picked |
| CalendarBooking.BookButtonMatchesGuard | src/components/booking/CalendarBooking.tsx:197 | the button is enabled exactly when `handleBook` would start for a signed-in user and nothing is loading |
| CalendarBooking.BookedRow | src/components/booking/CalendarBooking.tsx:39-75 | with a date and a time chosen and the service found, the inserted row is the appointment row for the chosen day and the start clock read from the chosen time |
| CalendarBooking.BookedWindow | src/components/booking/CalendarBooking.tsx:56-75 | with a date and a time chosen, a signed-in user and the service found, a row is inserted; its start and end strings read back as clocks `duracao` minutes apart, the end minute is in 0..59, and the date is `2025-06-` followed by two digits reading as the chosen day |
| SignUp.CheckSubmit | src/components/auth/SignUp.tsx:37-65 | rejects first on mismatched passwords, then on a password under 6 characters, then on a non-empty invalid CPF; only a form passing all three reaches `onSignUp`, with an empty CPF sent as absent |
| SignUp.ValidateCpf | src/components/auth/SignUp.tsx:23-26 | a valid CPF field is at least 11 characters long |
| SignUp.FormatCpf | src/components/auth/SignUp.tsx:28-32 | fewer than 11 digits give the digits alone; from 11 on, the output is three characters longer than the digits, with dots at positions 3 and 7 and a dash at 11 |
| SignUp.CheckSubmitOnFormattedField | src/components/auth/SignUp.tsx:55-65 | since the input stores `formatCPF` of what was typed (line 124), checking the formatted field gives the typed text's verdict whenever it is empty or holds a digit, and sends the formatted CPF; text with no digit is rejected as typed but formats to `""` and is submitted without a CPF |
| SignUp.ValidateIgnoresNonDigits | src/components/auth/SignUp.tsx:23-26 | inserting a non-digit anywhere never changes the validity verdict |
| SignUp.ValidateDigitsOnly | src/components/auth/SignUp.tsx:23-26 | for a string of digits, validity is exactly a length of 11 |
| SignUp.DigitsAroundSeparator | src/components/auth/SignUp.tsx:30 | a digit run, a separator and a tail keep the run followed by the tail's digits |
| SignUp.MaskKeepsDigits | src/components/auth/SignUp.tsx:30 | the mask only adds separators: its digits are the input digits, in order |
| SignUp.FormatKeepsDigits | src/components/auth/SignUp.tsx:28-32 | removing the non-digits from `formatCPF`'s output gives the input's digits |
| SignUp.FormatIdempotent | src/components/auth/SignUp.tsx:28-32 | formatting an already formatted value changes nothing |
| SignUp.FormatShape | src/components/auth/SignUp.tsx:30 | with exactly 11 digits the output has the shape `ddd.ddd.ddd-dd`; with fewer it is the bare digit string |
| SignUp.FormatKeepsValidity | src/components/auth/SignUp.tsx:23-32 | the field's formatted value is valid exactly when the raw input was |
| SignUp.EmptyCpfSubmits | src/components/auth/SignUp.tsx:55-65 | an empty CPF is never validated, and reaches `onSignUp` as absent |
| Pets.FetchPets | src/hooks/usePets.ts:33-53 | without a user nothing changes; otherwise the reply refreshes the list and an error keeps it |
| Pets.AddPet | src/hooks/usePets.ts:55-80 | without a user: an error, nothing sent, list unchanged; otherwise the row sent carries the hook's user id; an error or an empty result leaves the list; success returns the first row and prepends it |
| Pets.ReplaceById | src/hooks/usePets.ts:101 | the length is kept; each element with the id becomes the updated row and every other stays at its index |
| Pets.UpdatePet | src/hooks/usePets.ts:82-107 | success with rows replaces by id with the first row; an error or an empty result leaves the list unchanged |
| Pets.RemoveById | src/hooks/usePets.ts:120 | the list left holds exactly the pets of the old list whose id differs |
| Pets.DeletePet | src/hooks/usePets.ts:109-126 | success filters the list by id, so no pet with the id remains and every other pet is kept; an error leaves the list |
| Pets.ReplaceAbsentId | src/hooks/usePets.ts:101 | updating an id not in the list changes nothing |
| Pets.ReplaceIdempotent | src/hooks/usePets.ts:101 | repeating an update whose row keeps its id has no further effect |
| Pets.DeleteKeepsOrder | src/hooks/usePets.ts:120 | the pets left after a delete are a subsequence of the list, in the same relative order |
| Pets.DeleteAbsentId | src/hooks/usePets.ts:120 | deleting an id not in the list leaves it unchanged |
| Pets.AddThenDelete | src/hooks/usePets.ts:73-120 | a pet added and then deleted by its id is gone, and every earlier pet with another id is still listed |
| Services.FetchQuery | src/hooks/useServices.ts:22-29 | the per-establishment query is used exactly when an id is given (also for `refetchServices`, line 85), otherwise the all-services query |
| Services.Serves | src/hooks/useServices.ts:76-77 | a service without a species list serves every species; an empty list, truthy in JavaScript, serves none |
| Services.ServicesBySpecies | src/hooks/useServices.ts:74-79 | returns exactly the listed services that have no species list or whose list names the species |
| Services.SpeciesFilterKeepsOrder | src/hooks/useServices.ts:75 | the result is an order-preserving subsequence of the services |
| Services.SpeciesFilterMembership | src/hooks/useServices.ts:76-77 | a service without a list is always kept; one with a list is kept if and only if the list contains the species |
| Services.UnrestrictedServicesAllKept | src/hooks/useServices.ts:76 | when no service restricts species, every species sees the whole list |
| Services.QueriesSelectActive | src/hooks/useServices.ts:35-60 | both queries select only `ativo` services; the per-establishment one selects only that establishment's |
| ServiceSelection.HandleNext | src/components/booking/ServiceSelection.tsx:18-22 | `onNext` fires exactly for a non-empty selection, and with that selection |
| ServiceSelection.SelectedServiceData | src/components/booking/ServiceSelection.tsx:24 | the details are a listed service with the selected id, and are absent exactly when no service has it |
| ServiceSelection.View | src/components/booking/ServiceSelection.tsx:51-106 | a spinner while loading, the empty message exactly when loaded with no services, otherwise the picker with the details, and a button disabled exactly when nothing is selected |
| ServiceSelection.ButtonMatchesHandler | src/components/booking/ServiceSelection.tsx:100-103 | the button is disabled exactly when pressing it would not call `onNext` |
| ServiceSelection.DetailsIsFirstMatch | src/components/booking/ServiceSelection.tsx:24 | the details show the first service with the selected id |
| ServiceSelection.ScreenListsAllActive | src/components/booking/ServiceSelection.tsx:16 | the screen's hook, called without an establishment, issues the all-active-services query |
| Home.NameMatches | src/components/home/Home.tsx:54 | the empty query matches every name, and so does any query the name contains with its case as typed |
| Home.FilteredEstablishments | src/components/home/Home.tsx:53-55 | keeps exactly the establishments whose lowercased name contains the lowercased query |
| Home.CardImage | src/components/home/Home.tsx:120 | every card has a non-empty image: the first photo when `fotos` is an array whose first element is a non-empty string, else the fixed default image |
| Home.Interpolate | src/components/home/Home.tsx:124 | a present value is interpolated as itself and a missing one as `undefined` |
| Home.CardAddress | src/components/home/Home.tsx:124 | every card has non-empty address text: `rua - bairro`, starting with the street, when `rua` is truthy, else `Endereço não informado` |
| Home.FilterKeepsOrder | src/components/home/Home.tsx:53-55 | the filtered list is an order-preserving subsequence of the establishments |
| Home.EmptyQueryKeepsAll | src/components/home/Home.tsx:53-55 | an empty query shows every establishment |
| Home.LowerPrefix | src/components/home/Home.tsx:54 | the lowercased query occurs in the lowercased extended query |
| Home.LongerQueryNarrows | src/components/home/Home.tsx:53-55 | typing more characters never adds an establishment: the new result is a subsequence of the old |
| Home.CaseInsensitive | src/components/home/Home.tsx:53-55 | queries that differ only in ASCII case give the same result, upper-casing included |
| Home.EmptyMessageIffNoMatch | src/components/home/Home.tsx:131 | after loading, the empty message shows exactly when no name matches the query |
| Search.ShouldSearch | src/components/search/Search.tsx:50 | the effect searches exactly when the query is not blank or a category is chosen |
| Search.NameCondition | src/components/search/Search.tsx:79-81 | the name condition is present exactly when the trimmed query is non-empty, and it uses the untrimmed query inside `%…%` |
| Search.BuildRequest | src/components/search/Search.tsx:73-110 | both modes require status `ativo`; the services mode also requires an active establishment and filters by category exactly when one is chosen; the establishments mode never filters by category; a name condition appears exactly when the trimmed query is non-empty |
| Search.EstablishmentsIgnoreCategory | src/components/search/Search.tsx:73-85 | in establishments mode the chosen category plays no part in the request |
| Search.QueryChangesOnlyPattern | src/components/search/Search.tsx:79-81 | replacing one non-blank query by another changes only the text inside the name pattern: the table and every other condition stay |
| Search.RunEffect | src/components/search/Search.tsx:49-71 | with no trimmed query and no category, nothing is sent and both lists are emptied; otherwise the current mode's request is sent and only that mode's list is refreshed |
| Search.ToggleCategory | src/components/search/Search.tsx:189 | clicking the selected category clears it; clicking another selects it |
| Search.ClearFilters | src/components/search/Search.tsx:125-130 | the query, category and both result lists are reset, and the mode is kept |
| Search.Step | src/components/search/Search.tsx:49-57 | the effect runs exactly on a change to its dependencies: an offered action that leaves them unchanged changes nothing, and any other is followed by the search effect on the new state |
| Search.Plural | src/components/search/Search.tsx:233 | the suffix is `s` exactly when the count is not 1 |
| Search.Results | src/components/search/Search.tsx:210-262 | the prompt shows exactly when nothing triggers a search, then the skeleton while loading; otherwise the current mode's cards or its empty message, according to the list |
| Search.ClearEmptiesEverything | src/components/search/Search.tsx:125-130 | after the clear button, the query and category are empty, both lists are empty, and no request is sent |
| Search.BlankQueryDoesNotSearch | src/components/search/Search.tsx:49-55 | a query made only of spaces, with no category, sends nothing and empties the lists |
| Search.ToggleTwice | src/components/search/Search.tsx:189 | two clicks on the same badge from no selection select it, then clear it |
| Search.HeadingPlural | src/components/search/Search.tsx:233 | the heading ends in `s` exactly when the count is not 1; for one result it reads `1 <noun> encontrado` |
| Search.CardsHaveHeading | src/components/search/Search.tsx:260-262 | with services found and nothing loading, the services cards come with their counted heading |
| IndexPage.UserName | src/pages/Index.tsx:116 | the profile's name when truthy, else `Usuário` |
| IndexPage.Render | src/pages/Index.tsx:69-171 | a spinner while loading; with no user, the auth page alone decides; the calendar receives the recorded ids; unknown tags render home |
| IndexPage.Step | src/pages/Index.tsx:25-67 | a callback the current screen does not offer changes nothing; only a pet or service choice changes the recorded ids; only the auth callbacks change the auth page |
| IndexPage.InitialTagRendersHome | src/pages/Index.tsx:16 | a signed-in user whose page tag is still the initial `login` sees home |
| IndexPage.SignedOutIgnoresPage | src/pages/Index.tsx:80-96 | signed out, states that share the auth page render the same screen, whatever the page tag |
| IndexPage.AuthTransitions | src/pages/Index.tsx:25-47 | login success opens home and failure changes nothing; sign-up success returns to login and failure changes nothing; "create account" opens sign-up |
| IndexPage.WizardForward | src/pages/Index.tsx:113-145 | choosing a pet records it and opens the service step; choosing a service records it and opens the calendar with both ids |
| IndexPage.WizardBack | src/pages/Index.tsx:117-142 | back goes from calendar to service step to pet step to home, and keeps the recorded ids |
| IndexPage.FinishesGoHome | src/pages/Index.tsx:53-67 | a completed booking and a submitted review both return home; the review opens without appointment or establishment ids |
| IndexPage.RunKeepsIds | src/pages/Index.tsx:139-141 | in any run of callbacks, the pet id changes only through a pet choice and the service id only through a service choice, so the calendar gets the latest of each |
| IndexPage.RunKeepsAuthPage | src/pages/Index.tsx:17 | signed in, no run of callbacks changes the auth page |
| IndexPage.PetStepHandsOverSelection | src/pages/Index.tsx:118-121 | the pet step's `onNext` value is a non-empty selection, which becomes the recorded pet id |
| IndexPage.ServiceStepHandsOverSelection | src/pages/Index.tsx:130-133 | the service step's `onNext` value is a non-empty selection, which becomes the recorded service id |
| PetSelection.HandleNext | src/components/booking/PetSelection.tsx:22-26 | `onNext` fires exactly for a non-empty selection, and with that id |
| PetSelection.Choose | src/components/booking/PetSelection.tsx:90 | choosing in the select sets the selection only |
| PetSelection.OpenForm | src/components/booking/PetSelection.tsx:158 | the register button shows the form and keeps the selection |
| PetSelection.CloseForm | src/components/booking/PetSelection.tsx:37 | backing out of the form closes it without changing the selection |
| PetSelection.RegistrationSucceeded | src/components/booking/PetSelection.tsx:28-31 | registration success selects the new id and closes the form, with the screen's list unchanged |
| PetSelection.RegistrationSucceededShared | src/components/booking/PetSelection.tsx:28-31 | the corrected success handler: it also puts the new pet at the head of the screen's list |
| PetSelection.SelectedPet | src/components/booking/PetSelection.tsx:120 | the first pet with the selected id, absent exactly when none has it |
| PetSelection.View | src/components/booking/PetSelection.tsx:33-166 | the form is shown whenever its flag is set; then a spinner, the no-pets message for an empty list, or the picker, whose details panel appears exactly for a non-empty selection and whose button is disabled exactly without one |
| PetSelection.FormRoundTrip | src/components/booking/PetSelection.tsx:37 | opening the form and backing out returns to the same state |
| PetSelection.FirstPetStaysHidden | src/components/booking/PetSelection.tsx:28-31 | as written, registering the first pet leaves the no-pets screen up, even though the new id is selected |
| PetSelection.RegisteredPetShown | src/components/booking/PetSelection.tsx:28-31 | with the corrected handler, the picker returns with the new pet selected, shown in the panel, and the button enabled |
| PetSelection.PanelShowsSelected | src/components/booking/PetSelection.tsx:117-145 | the details panel only ever shows a listed pet with the selected id |
| PetSelection.RegistrationFlow | src/components/booking/PetSelection.tsx:28-39 | a successful form submit passes the new id to `onSuccess`, which the screen selects; as written, the screen's list stays as it was |
| ReviewSystem.Handle | src/components/booking/ReviewSystem.tsx:112-149 | a click sets the rating, a hover sets the hovered star, leaving clears the hover, typing sets the comment; nothing else changes |
| ReviewSystem.StarFilled | src/components/booking/ReviewSystem.tsx:122 | no star is filled before any click or hover; while a star is hovered the fill follows the hover whatever the rating; the first star is filled exactly once something is clicked or hovered |
| ReviewSystem.SubmitDisabled | src/components/booking/ReviewSystem.tsx:157 | the button is disabled while loading; otherwise it is enabled exactly while a rating label is shown |
| ReviewSystem.RatingLabel | src/components/booking/ReviewSystem.tsx:131-137 | a label is shown exactly for ratings 1..5 |
| ReviewSystem.Submit | src/components/booking/ReviewSystem.tsx:33-88 | rating 0 is rejected first and a missing user next; an insert happens exactly when both ids are present, with `nota` equal to the rating and `comentario` the comment, or absent when it is empty; a failed insert does not call back; otherwise the callback gets the rating and the comment |
| ReviewSystem.SavedRatingInRange | src/components/booking/ReviewSystem.tsx:56-77 | after any events from the opened screen, a review sent to the backend carries a rating from 1 to 5 |
| ReviewSystem.RunStaysInRange | src/components/booking/ReviewSystem.tsx:18-31 | any sequence of star and comment events keeps the rating and the hovered star in 0..5 |
| ReviewSystem.RatingNeverCleared | src/components/booking/ReviewSystem.tsx:25-27 | once a star is clicked, no event returns the rating to 0 |
| ReviewSystem.FilledStarsArePrefix | src/components/booking/ReviewSystem.tsx:122 | the filled stars are always a prefix of the row |
| ReviewSystem.ClickFillsUpTo | src/components/booking/ReviewSystem.tsx:112-125 | after clicking star k and leaving it, exactly stars 1..k are filled |
| ReviewSystem.OpenedWithoutIdsNeverSaves | src/components/booking/ReviewSystem.tsx:56-77 | without ids (as the app opens it, src/pages/Index.tsx:149), a rated review is passed on unsaved, whatever the backend would say |
| PetForm.SetText | src/components/pets/PetRegistrationForm.tsx:35-40 | `handleChange` on a text field sets that field and leaves every other field and the switch alone |
| PetForm.SetVaccinated | src/components/pets/PetRegistrationForm.tsx:213-215 | the switch changes only the vaccination flag |
| PetForm.PetData | src/components/pets/PetRegistrationForm.tsx:47-57 | empty `raca`, `sexo`, `cor`, `observacoes`, `idade` and `peso` become absent, and non-empty ones pass through (parsed for the numbers); `nome`, `especie` and the flag pass untrimmed |
| PetForm.Submit | src/components/pets/PetRegistrationForm.tsx:42-73 | calls `addPet` with the normalised data; `onSuccess` receives the new pet's id exactly when there is a user and the insert returned a row |
| PetForm.IsFormValid | src/components/pets/PetRegistrationForm.tsx:85 | the form is valid exactly when neither name nor species is blank |
| PetForm.SubmitDisabled | src/components/pets/PetRegistrationForm.tsx:233 | submit is disabled exactly while loading or while the name or species is blank |
| PetForm.EditChangesOneColumn | src/components/pets/PetRegistrationForm.tsx:35-57 | typing into one input changes only its column of the payload, an optional column becoming absent for empty text; the switch changes only the vaccination column |
| PetForm.SetTextCommutes | src/components/pets/PetRegistrationForm.tsx:35-40 | re-setting a field to its value is a no-op, and changes to two different fields commute |
| PetForm.EmptyOptionalFieldsAbsent | src/components/pets/PetRegistrationForm.tsx:20-57 | a fresh form with only name and species filled sends every optional column as absent and the flag as false |
| PetForm.SuccessInsertsForUser | src/components/pets/PetRegistrationForm.tsx:59-73 | on success the row sent carries the prop's user id and the form's data, the form's list gains the pet at its head, and `onSuccess` gets its id |
| PetForm.NoUserNoInsert | src/components/pets/PetRegistrationForm.tsx:59-73 | with an empty user id nothing is inserted and `onSuccess` is not called |
| ProfileScreen.FormFrom | src/components/profile/Profile.tsx:23-27 | each form field is the profile's field when truthy, else `""` |
| ProfileScreen.ProfileChanged | src/components/profile/Profile.tsx:29-37 | a present profile refills the form; an absent one changes nothing; edit mode is untouched |
| ProfileScreen.ToggleEdit | src/components/profile/Profile.tsx:132 | the edit button flips edit mode and keeps the form |
| ProfileScreen.Edit | src/components/profile/Profile.tsx:144 | typing in one input changes only that form field |
| ProfileScreen.Cancel | src/components/profile/Profile.tsx:71-78 | cancel refills the form from the profile and leaves edit mode |
| ProfileScreen.Save | src/components/profile/Profile.tsx:39-69 | sends exactly the form's name, phone and CPF for the user's id; success leaves edit mode, failure keeps the state |
| ProfileScreen.Shown | src/components/profile/Profile.tsx:149 | a displayed field is the profile's value when truthy, else `Não informado` (also lines 172 and 188) |
| ProfileScreen.CancelDiscardsEdits | src/components/profile/Profile.tsx:71-78 | after any run of typing and edit-button presses, cancel gives the state a fresh mount shows |
| ProfileScreen.ToggleTwice | src/components/profile/Profile.tsx:132 | two presses of the edit button return to the same state |
| ProfileScreen.ShownReadsProfile | src/components/profile/Profile.tsx:149-188 | the read-only view shows the profile's own fields, not the form's |
| ProfileScreen.SaveAfterEdit | src/components/profile/Profile.tsx:39-69 | a saved edit is sent as typed; after a failed save the edit remains in the form, in edit mode |
| ProfileScreen.FormFromRoundTrip | src/components/profile/Profile.tsx:23-27 | reading the form back as optional fields gives each truthy profile field, and absent for the rest |

## Left out

- Database and auth calls (select, insert, update, delete, sign-in, sign-up, sign-out) are foreign library calls. Each is an `Outcome` parameter, and the `user`, `profile` and `loading` values of the auth hook are parameters too. Row ordering (`order by created_at`, `order by categoria`) belongs to the backend: rows are kept in the order the reply gives them.
- Loading flags, toasts, spinners, CSS classes and the avatar initial are presentation. A loading flag appears only where it gates a view or a button.
- Async interleaving and double submission are concurrency. Each handler is modelled as running to completion with the replies given.
- TimeWindow.ParseTime: `Number()` is modelled only on non-empty runs of decimal digits. Other pieces (signs, spaces, decimals, `NaN`) give `None`. The calendar only ever parses entries of its fixed time list, and `CalendarBooking.Book` requires that invariant, which every click preserves.
- PetForm.PetData: `parseInt` and `parseFloat` are taken as given functions to `int` and `real`. Their `NaN` results and floating-point rounding are not represented.
- SignUp.CheckSubmit: password length counts characters, while JavaScript counts UTF-16 code units. The two differ only for characters outside the Basic Multilingual Plane.
- The CPF input's `maxLength={14}` is enforced by the browser while typing. It is not modelled.
- Home.FilteredEstablishments: lowercasing is modelled for ASCII letters only. JavaScript's full Unicode case mapping is not modelled.
- Search.BuildRequest: the `ilike` pattern is recorded as sent. The backend's matching, including `%` and `_` typed by the user, is not modelled.
- Home.Interpolate: an absent `bairro` is rendered as `undefined`. A `null` one would render as `null`, which the model does not distinguish.
- Services.Serves: `especies_atendidas` is modelled as absent or a list of names. A truthy non-array value (which `includes` would treat as a string) is not modelled.
- Home.CardImage: the first photo is modelled as a string. Non-string array elements are not modelled.
- The `updated_at` timestamp sent by the profile save comes from the clock. It is left out of `ProfileScreen.ProfileUpdate`.
- The calendar's month arrows have no handler, and the month is fixed at June 2025. The grid is modelled as the days 1..30.
- The joined establishment of a search result (`service.establishments?.nome`) and price formatting (`toFixed`) are presentation.
- Log-out (`signOut`) changes only the auth hook's state, which is outside the model.
- The appointments list, login form, establishment card, bottom navigation and the generated database types are not part of this model. The bottom navigation's tabs enter the model as `IndexPage.Navigate` events.

## Findings

| source | as written | input that shows it | evidently intended | confidence | as-written member | corrected member |
|---|---|---|---|---|---|---|
| src/components/booking/PetSelection.tsx:28-31 | the registration form inserts through its own `usePets` instance (src/components/pets/PetRegistrationForm.tsx:32), so the pet selection screen's list never receives the new pet; the handler only selects its id | a user with no pets registers one: the screen returns to "Nenhum pet cadastrado" and offers no way to continue from this screen, though the new id is selected; only leaving the step and coming back refetches the list | the new pet appears in the screen's list, selected, with the continue button enabled | medium, not executed | PetSelection.FirstPetStaysHidden | PetSelection.RegisteredPetShown |
