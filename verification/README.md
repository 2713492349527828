# Prescription intake bot — a Dafny model

This project models the core of a LINE chat bot that a pharmacy uses to take prescriptions. Each user
goes through the same conversation:

1. gives consent;
2. sends one or more photos of the prescription;
3. sends a phone number;
4. sends a pickup time.

The last message finalises the intake. Every photo is uploaded to a shared Google Drive folder under
a name derived from the receipt number. The user gets a summary reply, and their session is deleted.

The process keeps two dictionaries:
- `user_data`, the session store. It maps each user to the keys collected so far: `consent`,
  `receipt_id`, `images`, `phone` and `pickup_time`.
- `daily_counter`, the per-day allocation counter. It feeds the receipt numbers
  `<YYYYMMDD><count padded to 4 digits>`.

## Structure

| file | module | contents |
|---|---|---|
| `receipt_ids.dfy` | `ReceiptIds` | Receipt numbers. Decimal formatting and zero padding, with the read-back `Value`. Python string order `LexLess`. The per-day counter lookup `CountOn`. The set `Issued` of all numbers the counters have handed out. |
| `text_input.dfy` | `TextInput` | Python's `str.strip()` (over the exact `str.isspace()` set) and the `lower()` consent test. The fixed reply texts. The completion summary `Confirmation`. |
| `sessions.dfy` | `Sessions` | One user's entry (`Session`). The image paths and upload names. The stage read off the keys present. The entry invariant `WellFormed`. |
| `machine.dfy` | `Machine` | The three handlers as functions from state to `Outcome`. An `Outcome` holds the new state, the effects issued (replies, image files written, Drive uploads) and the exception raised, if any. `Handle` dispatches one event; `Run` folds a sequence of events. The store invariant is `Consistent`. |
| `steps.dfy` | `Steps` | What a single event does, and that every handler keeps `Consistent`. |
| `scenarios.dfy` | `Scenarios` | Whole conversations, such as many images, a complete intake, or an intake without images. |
| `bot.dfy` | `Bot` | The imperative model. Class `IntakeBot` holds the fields `sessions` and `counters`, which its methods update in place. It has `GenerateReceiptId`, the handlers `Follow`, `Image` and `Text`, and `Dispatch`; `Text` runs the finalisation loop `UploadAll`. Each handler (`Follow`, `Image`, `Text`, `Dispatch`) is proved to produce exactly the state, effects and exception that the matching `Machine` function describes. Every method keeps the store invariant `Valid`. |

## Modelling choices

- **The day.** The clock is not modelled. An image event carries the day as an 8-digit string
  (`DayKey`), standing for `strftime("%Y%m%d")`.
- **Missing `images`.** A missing `images` key is the empty sequence. Every reader uses
  `.get("images", [])` or `setdefault`, so the two cannot be told apart.
- **`consent`.** `consent` is a boolean that records whether the key is present. Its value is always
  `True`.
- **Reusing the receipt id.** `handle_image` reuses the stored id through Python's `or`. So a stored
  empty string would count as missing and be replaced. The model keeps that test
  (`receiptId.value != ""`), even though stored ids are never empty (`WellFormed`).
- **`lower()`.** Only the part of `str.lower()` that can change the consent test is modelled: ASCII
  capitals and U+212A KELVIN SIGN, which lowers to `k`.
- **Replies.** Replies are recorded as effects. A text message is recorded by what it says: a fixed
  `Notice`, or a `Summary` of the completion fields. `MessageText` gives the exact text that is sent,
  and `WordingDistinct` shows that no two notices share a text. The guide image message keeps its
  two URLs.
- **Writes and uploads.** Writing an image file is recorded as `SaveImage(path)`. A Drive upload is
  recorded as `Upload(name, source path, parents, properties)`.
- **The missing-receipt-id case.** A user can give consent and a phone number by text without ever
  sending an image. The pickup text then stores `pickup_time` and reads the missing `receipt_id`,
  which raises `KeyError`. This is modelled as the outcome's `raised = Some(KeyError("receipt_id"))`.
  The entry keeps every stage key, and from then on every text is ignored.
- **What `app.py` does not check or catch:**
  - Finalisation never checks that an image arrived (app.py:133, 145). A user with no image reaches
    the `KeyError` path above.
  - No failure of the chat service or of Drive is caught (app.py:82-88, 151-166).
  - As strings, the receipt numbers of one day increase only while the count is below 10000
    (`ReceiptIdOrder`, `OrderBreaksAtTenThousand`).

## Model

| member | source | states |
|---|---|---|
| ReceiptIds.CountOn | app.py:43 | `daily_counter.get(today, 0)`: the count already handed out on a day, 0 for a day not yet seen |
| ReceiptIds.Decimal | app.py:45 | `str(n)` for a natural number; its meaning is proved in `DecimalDigits` and `ValueOfDecimal` |
| ReceiptIds.ZeroPad | app.py:45 | the `04d` format: zeros in front of `str(n)` up to the width; proved in `ZeroPadDigits` and `ZeroPadRoundTrip` |
| ReceiptIds.ReceiptId | app.py:45 | `f"{today}{count:04d}"`; proved in `ReceiptIdShape`, `ReceiptIdInjective`, `ReceiptIdFixedWidth` and `ReceiptIdOrder` |
| ReceiptIds.DecimalDigits | app.py:45 | `str(count)` is a non-empty digit string with no leading zero unless the count is 0 |
| ReceiptIds.ZeroPadDigits | app.py:45 | `{count:04d}` is all digits, of length max(4, number of digits) |
| ReceiptIds.ValueOfDecimal | app.py:45 | reading `str(n)` back as a number gives n |
| ReceiptIds.ZeroPadRoundTrip | app.py:45 | the padding loses nothing: reading the padded count back gives the count |
| ReceiptIds.ReceiptIdShape | app.py:45 | a receipt number is all digits, at least 12 long, starts with the day, and its remaining digits read back as the count |
| ReceiptIds.ReceiptIdInjective | app.py:43-45 | two (day, count) pairs give the same receipt number if and only if they are equal |
| ReceiptIds.ReceiptIdFixedWidth | app.py:45 | a receipt number is exactly 12 characters if and only if the count is below 10000 |
| ReceiptIds.ReceiptIdOrder | app.py:43-45 | for counts below 10000, receipt numbers of one day compare as strings exactly as their counts do |
| ReceiptIds.OrderBreaksAtTenThousand | app.py:45 | the 10000th number of a day sorts before the 9999th as a string |
| ReceiptIds.AllocationFresh | app.py:41-45 | the number allocated next was never issued, and it is the only number the allocation adds to the issued set |
| TextInput.Strip | app.py:108 | `str.strip()`; `StripTrims` proves which text it returns |
| TextInput.Lower | app.py:115 | the `lower()` applied before the consent test, over the characters that can matter to it |
| TextInput.IsConsent | app.py:115 | `text.lower() in ['同意', 'はい', 'ok', '了解']`; `ConsentAccepted` lists exactly which texts pass |
| TextInput.StripTrims | app.py:108 | `strip()` returns a piece of the text that neither starts nor ends with whitespace, and only whitespace is cut from either side |
| TextInput.StripIdempotent | app.py:108 | stripping a stripped text changes nothing |
| TextInput.ConsentAccepted | app.py:115 | a text gives consent if and only if it is 同意, はい or 了解, or is "ok" in any mix of cases (including the Kelvin sign for k) |
| TextInput.WordingDistinct | app.py:65-137 | the fixed reply texts are pairwise different, so a notice stands for its text |
| TextInput.Confirmation | app.py:169-177 | the completion reply, the heading followed by the summary lines; `ConfirmationShowsFields` proves each field appears on its labelled line |
| TextInput.ConfirmationShowsFields | app.py:169-177 | the completion reply contains the labelled lines for the receipt number, the image count (with 枚), the phone and the pickup time |
| Sessions.ImagePath | app.py:84 | `/tmp/{receipt_id}_{k}.jpg`, where the saved image is written |
| Sessions.UploadName | app.py:153 | `{receipt_id}_{k}.jpg`, the Drive file name of the k-th image |
| Sessions.StageOf | app.py:114-142 | the stage read off the keys present, in the order the text handler tests them: consent, then phone, then pickup time; `Steps.TextFollowsStage` ties it to the branch taken |
| Sessions.UploadNamesDistinct | app.py:151-153 | two uploads of one receipt get the same file name if and only if they have the same image number |
| Machine.SessionOf | app.py:81-83 | `user_data.get(user_id, {})`: the user's entry, or the empty entry for a user not yet seen |
| Machine.Consistent | app.py:38-45 | the store invariant the handlers keep: counts of 1 or more, well-formed entries, every stored receipt number issued by the counters, and no number held by two users |
| Machine.FollowStep | app.py:62-73 | `handle_follow` on the state: resets the user's entry and greets; proved in `FollowResets` |
| Machine.ImageStep | app.py:77-102 | `handle_image` on the state, following the `or` reuse test and `setdefault`; proved in `ImageAllocatesOnce` |
| Machine.Uploads | app.py:151-166 | the uploads of the finalisation loop, one per image in order; `Bot.UploadAll` is proved equal to it |
| Machine.TextStep | app.py:106-181 | `handle_text` on the state, with its early returns and the KeyError of a missing receipt number; proved in `ConsentStep`, `PhoneStep`, `PickupStep` and `StalledIgnoresText` |
| Machine.Handle | app.py:54 | the handler's dispatch of one event to `handle_follow`, `handle_image` or `handle_text` |
| Machine.Run | app.py:38-39 | the state after a sequence of events, handled one after another on the same dictionaries |
| Steps.FollowResets | app.py:62-73 | a follow event sets the user's entry to empty, greets, raises nothing and leaves the counters alone |
| Steps.ImageAllocatesOnce | app.py:77-102 | an image allocates a receipt number (bumping that day's counter by one, starting at 1, and giving a number never issued) only when the entry has none, and otherwise keeps the stored one and the counters. It appends exactly `/tmp/{id}_{k}.jpg` with k = previous image count + 1, keeps the earlier images, sets consent, and leaves phone and pickup time alone |
| Steps.ConsentStep | app.py:110-130 | before consent, a consent phrase sets consent and sends thanks and the guide image; any other text leaves the entry as it was (created empty if missing) and asks for consent. Nothing else changes |
| Steps.PhoneStep | app.py:133-139 | with consent and no phone, the stripped text becomes the phone and nothing else changes, whether or not any image has arrived |
| Steps.PickupStep | app.py:142-181 | with a phone and no pickup time, an entry with a receipt number gets one upload per image, in order, named `{id}_{i}.jpg` with the receipt number, phone and pickup time as properties. Then comes the summary reply, and the entry is deleted. Without a receipt number, KeyError is raised with the pickup time stored, nothing is sent, and the entry is kept |
| Steps.StalledIgnoresText | app.py:142 | once the pickup time is stored, a text changes nothing and sends nothing |
| Steps.TextFollowsStage | app.py:110-145 | the text handler's branch is the entry's stage: the consent thanks or the consent request, the phone confirmation, finalisation (the entry deleted and the summary last) or the KeyError with nothing sent, and no effect once stalled |
| Steps.OtherUsersUntouched | app.py:62-181 | every handler leaves every other user's entry, and its presence, as it was |
| Steps.CountersOnlyGrow | app.py:43-44 | counters never decrease; only an image event moves them, by one on that event's day |
| Steps.FollowKeepsConsistent | app.py:64 | a follow event keeps the store invariant |
| Steps.FirstImageKeepsConsistent | app.py:81-95 | an image that allocates a number keeps the store invariant (the new number is held by nobody else) |
| Steps.LaterImageKeepsConsistent | app.py:81-95 | an image that reuses the stored number keeps the store invariant |
| Steps.ImageKeepsConsistent | app.py:77-102 | every image event keeps the store invariant |
| Steps.TextKeepsConsistent | app.py:106-181 | every text event keeps the store invariant |
| Steps.HandleKeepsConsistent | app.py:62-181 | every event keeps the store invariant |
| Steps.RunKeepsConsistent | app.py:38-39 | any sequence of events keeps the store invariant |
| Scenarios.ImagesReuseReceipt | app.py:81-95 | images sent while the entry holds a receipt number keep it and the counters, append the next numbered paths, and change no other entry |
| Scenarios.ImagesShareOneReceipt | app.py:81-95 | N ≥ 1 images from an entry without a receipt number give exactly one number (first image's day, next count), exactly one counter step, and images numbered 1..N, whatever days the later images arrive on |
| Scenarios.CompleteIntake | app.py:77-181 | N images, a phone text and a pickup text upload the N images in order as `{id}_1.jpg`…`{id}_N.jpg`, send the summary, delete the entry, leave every other entry alone, and move only the one counter |
| Scenarios.ConsentThenIntake | app.py:106-181 | for a new user, consent, N images, phone and pickup end with the entry deleted and the summary for N images sent |
| Scenarios.NoImageStalls | app.py:142-145 | consent and phone with no image make the pickup text raise KeyError with every stage key stored. Nothing is sent or uploaded, and every later text is ignored |
| Scenarios.ConsecutiveAllocations | app.py:43-45 | two allocations on one day give counts k and k + 1, distinct numbers, in string order while below 10000 |
| Scenarios.ReceiptIdsNeverShared | app.py:81-93 | after any events from an empty start, no two users hold the same receipt number |
| Bot.UploadAll | app.py:151-166 | the finalisation loop issues, for each image in order, the upload named `{id}_{idx + 1}.jpg` of that image into the shared folder, with the receipt number, phone and pickup time as properties |
| Bot.IntakeBot.constructor | app.py:38-39 | the process starts with no sessions and no counters, which satisfies the store invariant |
| Bot.IntakeBot.GenerateReceiptId | app.py:41-45 | today's count goes up by one (from 1 on a new day) and other days stay as they were. The result is the day followed by the padded count: a number never issued before and the only new one. Sessions are untouched, and the store invariant is kept |
| Bot.IntakeBot.Follow | app.py:62-73 | resets the user's entry in place and returns the greeting, exactly as `FollowStep`; keeps the store invariant |
| Bot.IntakeBot.Image | app.py:77-102 | reuses the stored receipt number or calls `GenerateReceiptId`, appends the image path and sets consent in place, and returns the save and the reply, exactly as `ImageStep`; keeps the store invariant |
| Bot.IntakeBot.Text | app.py:106-181 | strips the text and takes the consent, phone or pickup branch in place, returning the replies and uploads and the KeyError exactly as `TextStep`; keeps the store invariant |
| Bot.IntakeBot.Finalise | app.py:145-181 | the uploads of every image followed by the summary reply; the entry is deleted, the counters are unchanged, and the store invariant is kept |
| Bot.IntakeBot.Dispatch | app.py:54 | one event goes to its handler with the effect of `Handle`, and the store invariant is kept |

## Left out

- Flask routing, the webhook endpoint and signature verification (app.py:48-58) are transport.
  Events arrive already parsed.
- Reading the environment and credentials, and the fatal configuration check (app.py:19-35), are
  startup I/O.
- LINE API calls are not modelled: reply tokens, `reply_message`, and fetching the image content
  with `get_message_content`. Replies are recorded as effects, and image bytes are not modelled.
- Writing the image bytes to `/tmp` (app.py:86-88) is reduced to the path written.
- The Drive call (`MediaFileUpload` with its `image/jpeg` mimetype, `files().create`,
  `supportsAllDrives`) is reduced to the file name, source path, parent folder and properties.
- The wall clock (app.py:42) is not modelled. The day is a parameter of the image event.
- Exceptions thrown by collaborators are not modelled. For example, a failing content fetch after the
  counter was already bumped, or a failing upload halfway through the loop. Their effect on the HTTP
  response is not modelled either. The model's only exception is the KeyError of the no-image path.
- Bot.IntakeBot.Dispatch: it requires the store invariant, which the source never states. The
  invariant holds from process start (`constructor`) and is kept by every event
  (`Steps.HandleKeepsConsistent`).
- Events that app.py registers no handler for (unfollow, stickers, video, audio, location and the
  like) are not in `Event`. They change nothing in the source.
- Concurrency is not modelled: events are handled one at a time, and the source has no locking.
- main.py is a health check and a stub callback with no logic.
