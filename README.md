# Add New Client form: a verified model

This project models the submit path of the "Add New Client" dialog of the client
administration pages (`CreateClient`). The dialog holds a form record of six
string fields (`firstName`, `lastName`, `username`, `password`, `phone`, `email`),
an error map shown as per-field helper text, and the parent's `open` flag.
Typing in a field overwrites that one field. Closing resets everything.
Submitting validates the form:

- each of the five required fields must be non-empty, each with its own message;
- the email is optional, but a non-empty email must match `^\S+@\S+\.\S+$`.

On any error the error map is replaced and nothing is sent. Otherwise the payload
is a copy of the form without the `email` key when the email is empty. Exactly one
`createClient` request is dispatched, and the dialog closes.

Modules:

- `EmailFormat` (`email_format.dfy`): JavaScript's `\s` class (`IsWs`), the regex
  as a predicate over the split points of `A@B.C` (`MatchesEmailRegex`), the flat
  characterisation (`EmailShape`: no whitespace, an `@` at `i >= 1`, a `.` at `j`
  with `i + 2 <= j <= |s| - 2`) and the executable test `IsEmail`. `IsEmail`
  searches for the first `@` after index 0 and the last `.` before the final
  character.
- `ClientForm` (`client_form.dfy`): the `Field` names, the `FormData` record and
  its one-field update, the messages, `Validate` and `BuildPayload`, and
  `FromPayload`, a reference inverse of `BuildPayload` (the source never reads a
  payload back) used to state that building the payload loses nothing.
- `CreateClientDialog` (`create_client.dfy`): the dialog as a value (`Dialog`)
  with one step function per handler and the lemmas about them. The class
  `CreateClient` holds the component's mutable state, and each of its methods is
  proved to perform the matching step. `dispatch(createClient(payload))` appends
  the payload to the ghost sequence `sent`.

The error map's keys are always among the six field names, because the map is
keyed by the `Field` type. `handleChange` leaves the error map alone. A stale error
therefore stays on screen after the field is fixed, until the next submit or
close. The model keeps that behaviour.

## Model

| member | source | states |
|---|---|---|
| `EmailFormat.EmailRegexIffShape` | client/src/Pages/Users/CreateClient.jsx:49 | `^\S+@\S+\.\S+$` matches exactly the strings with no whitespace, an `@` at some index `i >= 1` and a `.` at some index `j` with `i + 2 <= j <= |s| - 2` (both directions) |
| `EmailFormat.IsEmail` | client/src/Pages/Users/CreateClient.jsx:49 | the executable regex test returns true if and only if the string matches `^\S+@\S+\.\S+$` |
| `EmailFormat.FirstAt` | client/src/Pages/Users/CreateClient.jsx:49 | returns the first `@` at or after the start index, or the length when there is none; nothing from the start index up to the result is an `@` |
| `EmailFormat.LastDot` | client/src/Pages/Users/CreateClient.jsx:49 | returns the last `.` before the bound, or -1 when there is none; nothing between the result and the bound is a `.` |
| `ClientForm.FormData.With` | client/src/Pages/Users/CreateClient.jsx:31 | the spread-copy sets the named field to the new value and leaves every other field as it was |
| `ClientForm.Validate` | client/src/Pages/Users/CreateClient.jsx:43-51 | each required field has an entry, with its exact message, if and only if it is empty; `email` has the entry "Invalid email format" if and only if it is non-empty and fails the regex, so an empty email never has one |
| `ClientForm.ValidateUnique` | client/src/Pages/Users/CreateClient.jsx:43-51 | any error map that agrees with the six per-field rules and their messages is the validation result |
| `ClientForm.ValidateEmptyIff` | client/src/Pages/Users/CreateClient.jsx:43-53 | the error map is empty if and only if all five required fields are non-empty and the email is empty or matches the regex |
| `ClientForm.ValidateInitialState` | client/src/Pages/Users/CreateClient.jsx:44-48 | the all-empty initial form fails on exactly the five required fields, each with its own message |
| `ClientForm.AsMap` | client/src/Pages/Users/CreateClient.jsx:58 | the copy `{ ...formData }` has all six keys, each holding that field's value |
| `ClientForm.BuildPayload` | client/src/Pages/Users/CreateClient.jsx:58-59 | the payload holds every field except `email` with its value; `email` is present, with its value, exactly when it is non-empty |
| `ClientForm.PayloadRoundTrip` | client/src/Pages/Users/CreateClient.jsx:58-59 | dropping an empty email loses nothing: reading the payload back gives the form that was submitted |
| `CreateClientDialog.ChangeStep` | client/src/Pages/Users/CreateClient.jsx:30-32 | a change sets only the named field; the other fields, the error map, the open flag and the sent requests are unchanged |
| `CreateClientDialog.CloseStep` | client/src/Pages/Users/CreateClient.jsx:34-38 | after a close the dialog is closed, all six fields are `""` and there are no errors, whatever the state before; no request is sent |
| `CreateClientDialog.SubmitStep` | client/src/Pages/Users/CreateClient.jsx:40-63 | a failed validation replaces the errors by the new map and changes nothing else; a passing one sends exactly the payload of the form, then resets the form, clears the errors and closes |
| `CreateClientDialog.CloseIdempotent` | client/src/Pages/Users/CreateClient.jsx:34-38 | closing twice equals closing once, and two states with the same sent requests close to the same state |
| `CreateClientDialog.SubmitSendsIffValid` | client/src/Pages/Users/CreateClient.jsx:43-61 | a submit sends one request if and only if the required fields are filled in and the email is empty or matches the regex, and sends none otherwise |
| `CreateClientDialog.FailedSubmitErrorsAreCurrent` | client/src/Pages/Users/CreateClient.jsx:53-56 | after a failed submit every error shown belongs to a field that breaks its rule in the current form, with that field's message: no stale entry survives |
| `CreateClientDialog.SubmittedPayload` | client/src/Pages/Users/CreateClient.jsx:58-61 | the request sent carries the five required fields, all non-empty, and the email only when it is non-empty; the submitted form can be read back from it |
| `CreateClientDialog.SubmitAfterSuccessSendsNothing` | client/src/Pages/Users/CreateClient.jsx:61-62 | a second submit right after a successful one sends nothing and shows exactly the five required-field errors |
| `CreateClientDialog.CollectErrors` | client/src/Pages/Users/CreateClient.jsx:43-51 | building the error map one `if` at a time yields exactly the validation result |
| `CreateClientDialog.CreateClient.constructor` | client/src/Pages/Users/CreateClient.jsx:18-28 | the component starts with the all-empty form, no errors and nothing sent |
| `CreateClientDialog.CreateClient.Change` | client/src/Pages/Users/CreateClient.jsx:30-32 | the handler performs `ChangeStep` on the component's state |
| `CreateClientDialog.CreateClient.Close` | client/src/Pages/Users/CreateClient.jsx:34-38 | the handler performs `CloseStep` on the component's state |
| `CreateClientDialog.CreateClient.Submit` | client/src/Pages/Users/CreateClient.jsx:40-63 | the handler performs `SubmitStep`: it dispatches at most one request, replaces the errors on failure, and closes on success |

## Left out

- The `EditClient` dialog (client/src/Pages/Users/EditClient.jsx). It does no validation. Its field update is the same spread-copy as `FormData.With`. Its submit sends `updateUser(client._id, clientData)` unconditionally and closes.
- Rendering: the MUI dialog, its slide transition, icons and CSS classes, the field labels built with `field.replace(/([A-Z])/g, ' $1')`, and each input's `type`.
- `isFetching` from the Redux store. It only changes the submit button's label.
- `createClient` and the Redux store behind `dispatch`. That code is not part of this model. A dispatch is recorded as the payload appended to `sent`.
- `e.preventDefault()`, the network, and React's batching of state updates. Each handler is modelled as one atomic step.
- The `open` flag is a prop owned by the parent component. The model treats it as a field of the dialog that `setOpen(false)` writes.
- `handleChange` can only name one of the six fields, because `Field` has six values. The source passes an arbitrary key, but the form only ever passes these six.
- Strings are sequences of Unicode scalar values. JavaScript strings are UTF-16 code units, and a regex without the `u` flag tests code units. The two views differ on characters outside the Basic Multilingual Plane, none of which is whitespace, so the verdict is the same for them. A JavaScript string can also hold an unpaired surrogate, which the regex treats as `\S`; no Dafny `char` represents one, so the model cannot express such an input.
