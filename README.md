# BriefMe core, modelled in Dafny

BriefMe lets a designer build a briefing form, share it as a public link,
and collect the client's answers. This project models the logic under the
React screens:

- the field schema and its editors: add, update, remove and move fields;
  change a field's type; edit dropdown options; edit a field's label,
  required flag, placeholder and tip;
- the public form: answers, per-field errors, submit-time validation;
- the briefing store: create, get, update and delete briefings, append-only
  responses, and the effects that load and save the list under a per-user
  storage key;
- the save checks of the create and edit pages, and the edit page's load
  effect;
- the dashboard's case-insensitive title search;
- the mock authentication: login, signup, logout and session restore;
- the string helpers: e-mail pattern, avatar initials, share link.

Each module matches one source file:

| module | source |
|---|---|
| `Types` | `src/types/index.ts` |
| `Helpers` | `src/utils/helpers.ts` |
| `FormBuilder` | `src/components/FormBuilder/FormBuilder.tsx` |
| `BriefingFormField` | `src/components/FormBuilder/BriefingFormField.tsx` |
| `FormRenderer` | `src/components/FormRenderer/FormRenderer.tsx` |
| `BriefingContext` | `src/context/BriefingContext.tsx` |
| `AuthContext` | `src/context/AuthContext.tsx` |
| `CreateBriefing` | `src/pages/CreateBriefing.tsx` |
| `EditBriefing` | `src/pages/EditBriefing.tsx` |
| `Dashboard` | `src/pages/Dashboard.tsx` |

Two support modules model the JavaScript built-ins the code relies on:

- `Seqs`: `filter` and the two `splice` forms.
- `Text`: `trim`, `toLowerCase`/`toUpperCase`, `includes` and `split`. `Text.IndexOf` is not a built-in the code calls: it is the search helper on which `Split` and `Helpers.IsValidEmail` are defined.

**How state is modelled.** Code that keeps React state is a class whose
fields are that state. Each handler is one method that replaces those
fields, and the method is proved against a function of the previous state:

- the draft edited by the form builder;
- the field editor's `showOptions`;
- the form renderer's answers, errors and submitter;
- the briefing store with its storage map;
- the auth state with its stored session.

Handlers that only build a new value are functions: the field edits, the
list updaters, the validators and the helpers.

**Clocks and the page origin.** Every `Date.now()` becomes a caller-supplied
`stamp` string, and every `new Date()` becomes an integer `now`.
`window.location.origin` becomes a parameter.

**Storage.** `localStorage` is a map from key to stored value. Each stored
value either parses or does not, which models what `JSON.parse` makes of
the stored text.

## Model

| member | source | states |
|---|---|---|
| Seqs.Filter | src/pages/Dashboard.tsx:45-47 | The result has only elements that satisfy the predicate. It has every such element and keeps their order, and it equals the input when all elements satisfy the predicate. |
| Seqs.RemoveIndex | src/components/FormBuilder/FormBuilder.tsx:46 | `filter((_, i) => i !== index)` removes exactly that position when it is in range, and otherwise returns the list unchanged. |
| Seqs.RemoveAt | src/components/FormBuilder/FormBuilder.tsx:52 | `splice(i, 1)` on a copy moves every later element down one place. It removes exactly one copy of `s[i]` from the multiset. |
| Seqs.InsertAt | src/components/FormBuilder/FormBuilder.tsx:53 | `splice(i, 0, x)` puts `x` at `i` and moves later elements up one place. It adds exactly `x` to the multiset. |
| Seqs.RemoveInserted | src/components/FormBuilder/FormBuilder.tsx:52-53 | Removing the element that was just inserted at the same position gives back the original sequence. |
| Seqs.InsertRemoved | src/components/FormBuilder/FormBuilder.tsx:52-53 | Re-inserting a removed element at its old position gives back the original sequence. |
| Text.Trim | src/components/FormRenderer/FormRenderer.tsx:38 | `trim()` gives '' exactly when every character is whitespace. Otherwise both ends of the result are non-whitespace. |
| Text.Contains | src/pages/Dashboard.tsx:46 | `includes` holds exactly when the term occurs at some position. |
| Text.IndexOf | src/utils/helpers.ts:21 | The search step of `Split` and `Helpers.IsValidEmail`, so it serves the e-mail pattern here, `split(' ')` at line 38 of the same file and `split('@')` at src/context/AuthContext.tsx line 48. It returns the first position of the character, or -1 when it does not occur. |
| Text.Split | src/utils/helpers.ts:38 | `split(sep)` returns at least one piece. No piece contains the separator, and joining the pieces with the separator gives back the input. |
| Text.SplitJoin | src/utils/helpers.ts:38 | Splitting a join of separator-free pieces gives back the pieces. |
| Text.LowerForgetsCase | src/pages/Dashboard.tsx:46 | Lower-casing a string that was already lower-cased or upper-cased gives the same result as lower-casing the original. |
| Helpers.GenerateBriefingLink | src/utils/helpers.ts:14-17 | The link is the origin, then `/briefings/`, then the id. |
| Helpers.LinkInjective | src/utils/helpers.ts:14-17 | For a fixed origin, equal links mean equal ids. |
| Helpers.IsValidEmail | src/utils/helpers.ts:20-23 | Accepts exactly the strings of the form A '@' B '.' C. A, B and C are non-empty and hold no whitespace and no '@'. |
| Helpers.ValidEmailShape | src/utils/helpers.ts:21 | A valid address has no whitespace and exactly one '@'. |
| Helpers.RejectsMissingDot | src/utils/helpers.ts:21 | An address with no '.' after its '@' is rejected. |
| Helpers.RejectsEmptyLocalPart | src/utils/helpers.ts:21 | An address that starts with '@' is rejected. |
| Helpers.GetInitials | src/utils/helpers.ts:42 | `substring(0, 2)` keeps at most two characters. |
| Helpers.HeadsOfJoin | src/utils/helpers.ts:37-40 | The first characters of space-free words are the word starts of those words joined by spaces. |
| Helpers.GetInitialsIsWordStarts | src/utils/helpers.ts:36-43 | The initials are the first two word-start characters of the name, upper-cased. Repeated, leading or trailing spaces contribute nothing. |
| BriefingFormField.ChangeType | src/components/FormBuilder/BriefingFormField.tsx:29-36 | The new type is set. A dropdown keeps the existing options, even an empty array, or gets `['']`. Any other type drops the options. All other properties are unchanged. |
| BriefingFormField.AddOption | src/components/FormBuilder/BriefingFormField.tsx:45-48 | Appends one '' option, giving `['']` when there were no options. Nothing else changes. |
| BriefingFormField.UpdateOption | src/components/FormBuilder/BriefingFormField.tsx:50-56 | Replaces only the option at the index and keeps the length. It does nothing when there are no options. |
| BriefingFormField.RemoveOption | src/components/FormBuilder/BriefingFormField.tsx:58-63 | With at least two options, removes exactly the one at the index. With one option or none, or an index outside the list, it changes nothing. Through it, a non-empty option list never becomes empty. |
| BriefingFormField.SinglePropertyEdits | src/components/FormBuilder/BriefingFormField.tsx:77-173 | The label, required, placeholder and tip inputs each set that one property and leave the field otherwise unchanged. |
| BriefingFormField.EditPreservesOptions | src/components/FormBuilder/BriefingFormField.tsx:27-126 | Every single edit keeps the options invariant: a dropdown has options, options are never empty, and only a dropdown has options. Option edits apply only to a dropdown, because the option controls render only under `showOptions`. |
| BriefingFormField.EditsPreserveOptions | src/components/FormBuilder/BriefingFormField.tsx:27-126 | Any sequence of edits keeps the whole options invariant: a dropdown never ends up without options, and no other type ever carries any. |
| BriefingFormField.FieldEditor.constructor | src/components/FormBuilder/BriefingFormField.tsx:27 | The options list is shown exactly when the field is a dropdown. |
| BriefingFormField.FieldEditor.HandleTypeChange | src/components/FormBuilder/BriefingFormField.tsx:29-36 | Shows the options exactly for a dropdown and returns the retyped field. |
| FormBuilder.FieldsAfterAdd | src/components/FormBuilder/FormBuilder.tsx:28-37 | Appends exactly one field: id `field-` + stamp, empty label, type text, optional, no options. Existing fields are unchanged. |
| FormBuilder.FieldsAfterUpdate | src/components/FormBuilder/FormBuilder.tsx:39-43 | Replaces only the given position and keeps the length. |
| FormBuilder.FieldsAfterRemove | src/components/FormBuilder/FormBuilder.tsx:45-48 | An in-range index drops exactly that field and keeps the rest in order. Any other index leaves the list unchanged. |
| FormBuilder.FieldsAfterMove | src/components/FormBuilder/FormBuilder.tsx:50-55 | No ensures of its own; its contract is stated by `MoveFieldPermutes`, `MoveFieldKeepsIds` and `Draft.MoveField`. |
| FormBuilder.MoveFieldPermutes | src/components/FormBuilder/FormBuilder.tsx:50-55 | The move is a permutation that puts the moved field at `to` and keeps the relative order of the others. Moving a field onto its own index is the identity. |
| FormBuilder.MoveFieldKeepsIds | src/components/FormBuilder/FormBuilder.tsx:50-55 | The multiset of field ids is unchanged. |
| FormBuilder.BuilderPreservesOptions | src/components/FormBuilder/FormBuilder.tsx:28-55 | Add, remove, in-range update and move keep every field's options invariant: dropdowns have non-empty options and no other type has any. |
| FormBuilder.Draft.constructor | src/pages/CreateBriefing.tsx:13-23 | The draft holds the given title, description and fields. |
| FormBuilder.Draft.SetTitle | src/components/FormBuilder/FormBuilder.tsx:67 | Sets the title. |
| FormBuilder.Draft.SetDescription | src/components/FormBuilder/FormBuilder.tsx:80 | Sets the description. |
| FormBuilder.Draft.AddField | src/components/FormBuilder/FormBuilder.tsx:28-37 | The new field list is `FieldsAfterAdd` of the old one. |
| FormBuilder.Draft.UpdateField | src/components/FormBuilder/FormBuilder.tsx:39-43 | Assigns into a copy. The new list is `FieldsAfterUpdate` of the old one. |
| FormBuilder.Draft.RemoveField | src/components/FormBuilder/FormBuilder.tsx:45-48 | The new list is `FieldsAfterRemove` of the old one. |
| FormBuilder.Draft.MoveField | src/components/FormBuilder/FormBuilder.tsx:50-55 | Two splices on a copy. The new list is `FieldsAfterMove` of the old one. |
| FormRenderer.FieldError | src/components/FormRenderer/FormRenderer.tsx:38-45 | No ensures of its own; one field's verdict, where a malformed non-empty e-mail answer takes precedence over a missing required answer. Its contract is stated by `CheckField`, `RequiredUnansweredFails` and `WhitespaceEmailIsInvalid`. |
| FormRenderer.RecordField | src/components/FormRenderer/FormRenderer.tsx:37-46 | No ensures of its own; one step of the `forEach`, recording a field's verdict under its id. Its contract is stated by `CheckField`, which proves the source's two overwriting `if`s equal to it. |
| FormRenderer.FieldErrors | src/components/FormRenderer/FormRenderer.tsx:36-46 | No ensures of its own; the `forEach` fold over the fields. Its contract is stated by `FieldErrorsKeys`, `FieldErrorsMessages`, `FieldErrorsOfDistinct` and the loop invariant of `FormState.ValidateForm`. |
| FormRenderer.CheckField | src/components/FormRenderer/FormRenderer.tsx:37-46 | Runs the required check, then the e-mail check, which overwrites. The result is the error map with that field's verdict recorded. |
| FormRenderer.FieldErrorsKeys | src/components/FormRenderer/FormRenderer.tsx:37-46 | An id carries an error exactly when some field with that id fails. |
| FormRenderer.FieldErrorsMessages | src/components/FormRenderer/FormRenderer.tsx:37-46 | Every recorded message is the required message or the e-mail message. |
| FormRenderer.FieldErrorsOfDistinct | src/components/FormRenderer/FormRenderer.tsx:37-46 | With distinct ids, each field's entry is exactly its own verdict. |
| FormRenderer.FormErrors | src/components/FormRenderer/FormRenderer.tsx:33-55 | No ensures of its own; its contract is stated by `FormErrorsEmptyIff`, `SubmitterCheck` and `FormState.ValidateForm`. |
| FormRenderer.FormErrorsEmptyIff | src/components/FormRenderer/FormRenderer.tsx:33-55 | The form passes exactly when no field fails and the submitter is empty or a valid address. |
| FormRenderer.RequiredUnansweredFails | src/components/FormRenderer/FormRenderer.tsx:38-40 | A required field whose answer is missing or blank gets 'Este campo é obrigatório'. The exception is a malformed non-empty e-mail answer, which gets 'Email inválido'. |
| FormRenderer.WhitespaceEmailIsInvalid | src/components/FormRenderer/FormRenderer.tsx:38-45 | A whitespace-only answer to an e-mail field counts as unanswered, yet gets 'Email inválido'. |
| FormRenderer.SubmitterCheck | src/components/FormRenderer/FormRenderer.tsx:49-51 | An empty submitter adds no error. A non-empty invalid submitter adds 'Email inválido' under `submittedBy`. |
| FormRenderer.SampleAddressIsValid | src/utils/helpers.ts:20-23 | "x@y.com" is accepted. |
| FormRenderer.BlankRequiredFieldRejected | src/components/FormRenderer/FormRenderer.tsx:38-40 | A one-field form whose required text field is unanswered fails, with the required message under the field's id. |
| FormRenderer.AnsweredFormAccepted | src/components/FormRenderer/FormRenderer.tsx:33-55 | The same form, answered and with a valid submitter, passes. |
| FormRenderer.FormState.constructor | src/components/FormRenderer/FormRenderer.tsx:18-20 | The form starts with no answers, no errors and an empty submitter. |
| FormRenderer.FormState.HandleChange | src/components/FormRenderer/FormRenderer.tsx:22-31 | Sets only that answer and clears only that field's error. Every other answer and error is unchanged. |
| FormRenderer.FormState.SetSubmittedBy | src/components/FormRenderer/FormRenderer.tsx:87 | Sets the submitter. |
| FormRenderer.FormState.ValidateForm | src/components/FormRenderer/FormRenderer.tsx:33-55 | Replaces the whole error map with the errors of the current answers. Returns true exactly when that map is empty. |
| FormRenderer.FormState.HandleSubmit | src/components/FormRenderer/FormRenderer.tsx:57-63 | Produces a submission exactly when validation passes. The submission holds the answers, with an empty submitter passed as absent. |
| BriefingContext.Find | src/context/BriefingContext.tsx:65-67 | Returns the first briefing with the id, or none when no briefing has it. |
| BriefingContext.Merge | src/context/BriefingContext.tsx:73 | Takes the title, description and fields from the update when it carries them and sets `updatedAt`. Id, owner, creation time and responses are unchanged. |
| BriefingContext.UpdateMatching | src/context/BriefingContext.tsx:69-76 | Merges exactly the briefings with the id and keeps the length. Every other briefing is unchanged. |
| BriefingContext.AppendResponse | src/context/BriefingContext.tsx:94-103 | Appends the response to exactly the briefings with the id. Every other briefing is unchanged. |
| BriefingContext.RemoveBriefing | src/context/BriefingContext.tsx:81 | No ensures of its own; its contract is stated by `DeleteRemovesId` (and the `Seqs.Filter` contract it is defined with). |
| BriefingContext.DeleteRemovesId | src/context/BriefingContext.tsx:80-81 | After a delete, no briefing has the id and `getBriefing` finds nothing. All other briefings are kept, in order. |
| BriefingContext.UnknownIdChangesNothing | src/context/BriefingContext.tsx:69-103 | Update and submit with an unknown id leave the list unchanged. |
| BriefingContext.SubmitAppendsOne | src/context/BriefingContext.tsx:85-103 | A matching briefing gains exactly one response, placed last. Its earlier responses, fields, id and title are unchanged. |
| BriefingContext.FindAfterUpdate | src/context/BriefingContext.tsx:65-76 | After an update, `getBriefing` finds the merge of what it found before. |
| BriefingContext.FindAfterSubmit | src/context/BriefingContext.tsx:65-103 | After a submit, `getBriefing` finds what it found before, with the response appended. |
| BriefingContext.FindAfterAppend | src/context/BriefingContext.tsx:60-67 | After a create, `getBriefing` finds the new briefing under its id unless an older briefing has that id. Every other lookup is unchanged. |
| BriefingContext.Persisted | src/context/BriefingContext.tsx:43-47 | No ensures of its own; its contract is stated by `BriefingStore.Persist`, `PersistThenLoad` and `EmptyListLeavesStaleStorage`. |
| BriefingContext.LoadedBriefings | src/context/BriefingContext.tsx:25-40 | No ensures of its own; its contract is stated by `BriefingStore.OnUserChange`, `ReloadRewritesNothing` and `UserSwitchCopiesList`. |
| BriefingContext.StorageAfterLoad | src/context/BriefingContext.tsx:25-40 | No ensures of its own; its contract is stated by `BriefingStore.OnUserChange` and `ReloadRewritesNothing`. |
| BriefingContext.PersistThenLoad | src/context/BriefingContext.tsx:25-47 | A saved non-empty list is what the next load for that user reads back. |
| BriefingContext.EmptyListLeavesStaleStorage | src/context/BriefingContext.tsx:43-47 | Whatever else storage holds, deleting a user's last briefing writes nothing, so the next load brings the deleted briefing back. |
| BriefingContext.ReloadRewritesNothing | src/context/BriefingContext.tsx:25-47 | Loading a user's stored non-empty list and saving it leaves storage exactly as it was. |
| BriefingContext.UserSwitchCopiesList | src/context/BriefingContext.tsx:26-47 | A user with nothing stored keeps the in-memory list. So a direct switch from one user to another saves the first user's briefings under the second user's key. |
| BriefingContext.BriefingStore.constructor | src/context/BriefingContext.tsx:20-21 | The store starts with an empty list, loading, and the given storage. |
| BriefingContext.BriefingStore.Persist | src/context/BriefingContext.tsx:43-47 | Writes the whole list under the user's key only when there is a user and the list is non-empty. |
| BriefingContext.BriefingStore.OnUserChange | src/context/BriefingContext.tsx:25-47 | A parsable stored list replaces memory and an unparsable one is removed. No user empties the list, and a user with nothing stored keeps it. The save effect then runs. |
| BriefingContext.BriefingStore.CreateBriefing | src/context/BriefingContext.tsx:49-63 | Without a user it fails and changes nothing. Otherwise it appends exactly one briefing: id `briefing_` + stamp, owned by the user, no responses, the given title, description and fields. |
| BriefingContext.BriefingStore.UpdateBriefing | src/context/BriefingContext.tsx:69-78 | The list becomes `UpdateMatching` of the old list, then the save effect runs. |
| BriefingContext.BriefingStore.DeleteBriefing | src/context/BriefingContext.tsx:80-83 | The list becomes the old list without the id, then the save effect runs. |
| BriefingContext.BriefingStore.SubmitResponse | src/context/BriefingContext.tsx:85-106 | Appends the response `response_` + stamp to the matching briefings, then the save effect runs. |
| AuthContext.Utf16Length | src/context/AuthContext.tsx:40 | `password.length` counts UTF-16 units. It lies between the character count and twice it, and equals the character count on the basic plane. |
| AuthContext.NameFromEmail | src/context/AuthContext.tsx:48 | The name is the longest '@'-free prefix of the address. |
| AuthContext.NameOfSampleAddress | src/context/AuthContext.tsx:48 | "ana@acme.com" gives the name "ana". |
| AuthContext.PasswordLengthBoundary | src/context/AuthContext.tsx:40-42 | Five characters are rejected and six are accepted. |
| AuthContext.LoginUser | src/context/AuthContext.tsx:45-50 | No ensures of its own; the made-up user of `login`, named after the part of the address before '@'. Its contract is stated by `AuthState.Login`, `NameFromEmail` and `LoginSurvivesReload`. |
| AuthContext.SignupUser | src/context/AuthContext.tsx:75-80 | No ensures of its own; the made-up user of `signup`, with the supplied name. Its contract is stated by `AuthState.Signup`. |
| AuthContext.RestoredUser | src/context/AuthContext.tsx:21-32 | No ensures of its own; a parsable stored session becomes the user, anything else keeps the current one. Its contract is stated by `AuthState.Restore`, `LoginSurvivesReload` and `LogoutSurvivesReload`. |
| AuthContext.SessionAfterRestore | src/context/AuthContext.tsx:21-32 | No ensures of its own; an unparsable stored session is removed, anything else is kept. Its contract is stated by `AuthState.Restore`, `LoginSurvivesReload` and `LogoutSurvivesReload`. |
| AuthContext.AuthState.constructor | src/context/AuthContext.tsx:17-18 | The state starts with no user, loading, and the given stored session. |
| AuthContext.AuthState.Restore | src/context/AuthContext.tsx:21-32 | A parsable session becomes the user and an unparsable one is removed. Loading ends. |
| AuthContext.AuthState.Login | src/context/AuthContext.tsx:35-62 | A password under 6 units is rejected with 'Senha inválida', leaving user and session unchanged. Otherwise the made-up user (name taken from the address) becomes both the user and the stored session. |
| AuthContext.AuthState.Signup | src/context/AuthContext.tsx:65-92 | Same length rule, rejected with its own message. On success the user carries the supplied name and is stored as the session. |
| AuthContext.AuthState.Logout | src/context/AuthContext.tsx:95-107 | Removes the session and signs the user out. |
| AuthContext.LoginSurvivesReload | src/context/AuthContext.tsx:21-53 | After a successful login, a new provider on the same storage restores the same user. After a rejected login it restores nobody. |
| AuthContext.LogoutSurvivesReload | src/context/AuthContext.tsx:95-107 | After a logout, a new provider restores nobody. |
| Dashboard.FilteredBriefings | src/pages/Dashboard.tsx:45-47 | No ensures of its own; its contract is stated by `SearchKeepsExactlyMatches`, `EmptyTermShowsAll` and `SearchIgnoresCase`. |
| Dashboard.SearchKeepsExactlyMatches | src/pages/Dashboard.tsx:45-47 | The result is an order-preserving subsequence of exactly the briefings whose lower-cased title contains the lower-cased term. |
| Dashboard.EmptyTermShowsAll | src/pages/Dashboard.tsx:45-47 | The empty term keeps every briefing. |
| Dashboard.SearchIgnoresCase | src/pages/Dashboard.tsx:46 | Upper- or lower-casing the term does not change the result. |
| Dashboard.TitleFindsItself | src/pages/Dashboard.tsx:46 | A briefing is found by its own title written in capitals. |
| CreateBriefing.CheckDraft | src/pages/CreateBriefing.tsx:29-45 | No ensures of its own; its contract is stated by `CheckDraftChain`. The edit page runs the same checks (src/pages/EditBriefing.tsx, lines 41-56). |
| CreateBriefing.CheckDraftChain | src/pages/CreateBriefing.tsx:29-45 | The checks run title, then field count, then labels. Each rejection happens exactly when its check is the first to fail, and a draft passes exactly when all three checks pass. |
| CreateBriefing.SomeUnlabelled | src/pages/CreateBriefing.tsx:41-42 | `invalidFields` is non-empty exactly when some label trims to ''. |
| CreateBriefing.InitialDraftNeedsOnlyTitle | src/pages/CreateBriefing.tsx:15-23 | The seeded draft is rejected only for its missing title. With a title, it passes. |
| CreateBriefing.NewDraft | src/pages/CreateBriefing.tsx:13-24 | The draft starts with no title, no description and one required text field labelled 'Nome do Projeto'. |
| CreateBriefing.HandleCreateBriefing | src/pages/CreateBriefing.tsx:29-62 | A failing draft is rejected and the store is left alone. Without a user the store throws; the page rejects the save with its own generic error, 'Ocorreu um erro ao criar o briefing', and nothing changes. Otherwise the untrimmed draft is created and the page moves to `/view-briefing/` + id. |
| EditBriefing.EmptyDraft | src/pages/EditBriefing.tsx:13-15 | The edit page starts with an empty draft. |
| EditBriefing.LoadDraft | src/pages/EditBriefing.tsx:23-36 | A found briefing is copied into the draft, with its description defaulting to ''. An unknown id leaves the draft alone and redirects. No id does nothing. |
| EditBriefing.HandleUpdateBriefing | src/pages/EditBriefing.tsx:38-73 | No route id: nothing happens. A failing draft is rejected and the store is left alone. Otherwise title, description and fields are sent and the page moves to the briefing's view. |
| EditBriefing.SaveLoadedKeepsBriefing | src/pages/EditBriefing.tsx:28-64 | Saving a loaded briefing keeps its id, owner, creation time, responses, fields and title. An absent description becomes `''`, a present one is kept, and `updatedAt` becomes the save time; nothing else changes. |

## Left out

- Rendering, routing, toasts, `console.error`, `copyToClipboard` and `formatDate`: presentation, browser I/O and locale formatting. The save handlers return where they would navigate instead.
- The `isSubmitting` flags of the pages and the `loading` window during login and signup. Each handler is modelled as one atomic step, so the `true` phase is never observable.
- React effect scheduling: each user change is modelled as the load effect followed at once by the save effect on the loaded list. In React, the save effect of the same commit still sees the list from before the load.
- JSON serialisation: the round trip turns `Date` values into strings. A stored value is modelled as parsable or not. A stored empty string (falsy, so skipped by the load effect) is not modelled.
- The uniqueness of `Date.now()` ids: stamps are parameters, and nothing assumes two creations get different stamps.
- `updateBriefing` accepts any `Partial<Briefing>`. Only the title, description and fields, which its callers pass, are modelled.
- The zod schemas of the login and signup pages: third-party validation.
- `window.location.origin`: a parameter of `GenerateBriefingLink`.
- Text.ToLower: maps only ASCII letters; JavaScript's full Unicode case mapping is not modelled.
- Helpers.GetInitials: works on characters, whereas `n[0]` takes a UTF-16 unit and may return half of a surrogate pair.
- BriefingContext.BriefingStore.GetBriefing: a plain read of the list through `Find`, which carries the contract.
- FormBuilder.Draft.UpdateField and FormBuilder.Draft.MoveField require in-range indexes. Index assignment and `splice` out of range lengthen the array or insert `undefined`, and no caller passes such an index.
- The option handlers themselves do not check the field type; `BriefingFormField.Applicable` admits option edits only on a dropdown because the option controls render only under `showOptions`. `showOptions` is set from the field once, when the editor mounts, and by type changes; a field whose type the parent changes by other means is not modelled.
- BriefingFormField.UpdateOption requires a rendered option index. An index past the end would create holes in the array.
