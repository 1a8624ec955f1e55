# Contact form and CV layout, modelled in Dafny

This project models the two pieces of behaviour in a small marketing website.

**The contact-form controller** (`src/app/contact/page.tsx`) holds one record, `data`. It has five text fields (`fname`, `lname`, `tel`, `email`, `message`) and three display fields (`sent`, `buttonText`, `err`). The model has:

- A datatype `FormData` for the record, held in the field `data` of the class `ContactPage.ContactForm`.
- A closed enumeration `FieldName` for the field name that `handleChange` reads from the input event. An unknown name cannot be expressed.
- Methods `HandleChange`, `FormSubmit` and `ResetForm`. Each one's postcondition ties the new record to a pure function of the old one.
- A ghost log `updates` of every record passed to `setData`. It shows that the success branch's `'Sent'`/`'success'` update happens and is overwritten at once by `resetForm`.

The submission gateway (`src/lib/contact.ts`) is the class `ContactApi.Client`. It records every POST, with its URL and body, and every diagnostic it logs. Whether the request succeeds is the `Outcome` parameter (`Success | Failure`).

A session is a sequence of events, each an edit or a submit with its outcome. The method `Replay` drives a `ContactForm` through a session by its own handlers and proves that the held record and the gateway's requests are what the session functions `Run` and `Posted` say. The lemmas about sessions cover three things: what the fields hold, what gets posted, and where a successful submit leaves the form.

**The CV page layout** (`src/app/cv/page.tsx`) has two parts:

- The width every PDF page is rendered at. It is clamped to `maxWidth = 800`, and it falls back to 800 when the container width is unset or `0`.
- The list of rendered pages: numbers `1..numPages`, keyed `page_<n>`.

The class `CvPage.CvViewer` holds `numPages` and `containerWidth`. Its methods are the two setters `onResize` and `onDocumentLoadSuccess`.

Points of the code's behaviour that are easy to misread:

- `formSubmit` has no guard against resubmitting while `buttonText` is `'Sending...'`. Every submit posts.
- After a successful send, the record is the initial record. `buttonText` is `'Submit'` and `sent` is `false`, not `'Sent'`/`true`.
- The POST body is the whole captured record, display fields included, not just the five text fields.
- There is no separate status field. The lifecycle lives in `buttonText` and `err`.

## Model

| member | source | states |
|---|---|---|
| ContactApi.Client.Contact | src/lib/contact.ts:11-21 | exactly one POST to the fixed webhook URL with the given body per call; returns normally iff the request succeeds; on failure exactly one diagnostic line is logged before the error is rethrown |
| ContactPage.FieldNamed | src/app/contact/page.tsx:20-25 | the name carried by a change event selects a field exactly when it is one of the five input names, and the field selected is the one whose input bears that name |
| ContactPage.NameRoundTrip | src/app/contact/page.tsx:92-98 | each input's `name` attribute selects the very field its `value` is bound to |
| ContactPage.Initial | src/app/contact/page.tsx:9-18 | the initial record: all five text fields empty, `sent` false, button label "Submit", `err` empty |
| ContactPage.Edit | src/app/contact/page.tsx:22-25 | the named field now holds the new value; every other text field and all three display fields are unchanged |
| ContactPage.EditUnique | src/app/contact/page.tsx:22-25 | the new value in the named field and agreement everywhere else determine the edited record completely |
| ContactPage.Sending | src/app/contact/page.tsx:31-34 | the first update of a submit changes only the button label, to "Sending..." |
| ContactPage.Delivered | src/app/contact/page.tsx:38-43 | the success update keeps the text fields and sets `sent`, the label "Sent" and `err = 'success'` |
| ContactPage.Rejected | src/app/contact/page.tsx:46-50 | the failure update keeps the snapshot's text fields and `sent`, with label "Failed to send" and `err = 'fail'` |
| ContactPage.Submitted | src/app/contact/page.tsx:36-51 | after a successful send the record is the initial record; after a failed one it keeps the snapshot's text fields and `sent` and shows the failure label and flag |
| ContactPage.SubmitUpdates | src/app/contact/page.tsx:31-44 | a submit makes exactly the `setData` calls of the source: the "Sending..." record, then on success the "Sent" record followed by the initial record, on failure the failure record alone |
| ContactPage.ContactForm.constructor | src/app/contact/page.tsx:9-18 | the form starts at the initial record with no updates made |
| ContactPage.ContactForm.HandleChange | src/app/contact/page.tsx:20-26 | the held record becomes the edited record, by one update |
| ContactPage.ContactForm.HandleInput | src/app/contact/page.tsx:20-26 | a change event from one of the five inputs, identified by its `name`, sets the field bound to that input and nothing else |
| ContactPage.ContactForm.FormSubmit | src/app/contact/page.tsx:28-52 | with no precondition on the current record, appends exactly one POST whose body is the whole pre-submit record; the record becomes the submit result built from that snapshot; the updates made are exactly the submit's updates; one log line is added on failure only |
| ContactPage.ContactForm.ResetForm | src/app/contact/page.tsx:54-65 | the held record becomes the initial record, whatever it was before |
| ContactPage.RetryAfterFailure | src/app/contact/page.tsx:45-51 | after typed fields and a failed submit, the retry posts the same five field values, and its success leaves the initial record |
| ContactPage.Replay | src/app/contact/page.tsx:20-52 | driving the form through any session by its handlers leaves the record the session semantics gives, appends exactly the bodies it says are posted, one per submit, and ends at the initial record when the last submit succeeds |
| ContactPage.OnePostPerSubmit | src/app/contact/page.tsx:28-37 | in any session the number of POSTs equals the number of submits, whatever labels the record shows in between |
| ContactPage.SuccessEndsAtInitial | src/app/contact/page.tsx:44 | any session ending with a successful submit ends at the initial record |
| ContactPage.FieldsAreLastEdits | src/app/contact/page.tsx:20-51 | until a submit succeeds, each text field holds the value of its last edit (or its starting value), failed submits included, and `sent` never changes |
| ContactPage.EditsKeepDisplay | src/app/contact/page.tsx:20-26 | any run of edits leaves `sent`, `buttonText` and `err` unchanged |
| ContactPage.RetryPostsSameFields | src/app/contact/page.tsx:37-50 | a failed submit followed by another submit posts twice; the first body is the record itself and the second has the same five text fields |
| CvPage.PageWidth | src/app/cv/page.tsx:102-106 | the page width never exceeds 800; it is 800 when the container width is unset or 0; otherwise it is at most the container width and equals either it or 800 (so it is their minimum) |
| CvPage.PageNumbers | src/app/cv/page.tsx:97-100 | the page numbers are strictly ascending and are exactly 1..numPages, one per page; none before the document loads |
| CvPage.Decimal | src/app/cv/page.tsx:99 | the number-to-text step of the page key gives a non-empty string of decimal digits with no leading zero, one digit long exactly for numbers below 10 |
| CvPage.DecimalValue | src/app/cv/page.tsx:99 | reading the rendered digits back as a decimal number gives the page number |
| CvPage.DecimalInjective | src/app/cv/page.tsx:99 | different page numbers render to different decimal strings |
| CvPage.PageKeyInjective | src/app/cv/page.tsx:99 | different page numbers give different `page_<n>` keys |
| CvPage.Pages | src/app/cv/page.tsx:97-107 | one rendered page per page number, in order, each keyed `page_` plus its own number and rendered at the clamped width, which is at most 800; nothing before the document loads |
| CvPage.PageKeysDistinct | src/app/cv/page.tsx:97-100 | each rendered page's key is `page_` followed by its own number, and the keys are pairwise distinct |
| CvPage.CvViewer.constructor | src/app/cv/page.tsx:46-48 | no page count and no container width before anything is observed |
| CvPage.CvViewer.OnResize | src/app/cv/page.tsx:50-56 | the container width becomes the first entry's width when there is an entry; an empty entry list leaves it unchanged; the page count is untouched |
| CvPage.CvViewer.OnDocumentLoadSuccess | src/app/cv/page.tsx:60-64 | the page count becomes the document's page count; nothing else changes |
| CvPage.CvViewer.Rendered | src/app/cv/page.tsx:97-107 | the component renders one page per counted page, numbered from 1, all at the clamped width |

## Left out

- Asynchrony and React scheduling: the `await`, update batching, re-rendering and edits made while a request is in flight. `formSubmit` is one atomic step, so the difference between the captured `data` and a later state cannot arise. The model still builds the failure update from the capture.
- The network: the axios POST is a recorded request plus an outcome parameter. No timeout, transport error detail or response body is modelled. The content of the logged error object is not kept, only the fixed message.
- The unused `agreed` state and the form's `action`/`method` attributes. They have no behaviour.
- The JSX markup and styling of both pages, the PDF worker setup, the `Document`/`Page` rendering, the resize-observer hook, the `file` state and router back-navigation. These are presentation or calls into libraries.
- The floating-point nature of `contentRect.width`. Widths are reals, and `NaN` (also falsy in JavaScript) is not modelled.
- The key order of the POST body. The initial record lists `tel, email, message`, `resetForm` lists `email, message, tel`, and the spread keeps the order. So after a successful submit, later POST bodies serialise their JSON keys in a different order from the first. The datatype has no key order.
- `src/app/page.tsx`, `src/components/Footer.tsx` and `src/app/mystatement/page.tsx`. They are static content with only presentational selections and calls to the clock.
