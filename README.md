# AI Email Reply Assistant: a Dafny model of the reply-drafting core

The assistant takes an email, either pasted or extracted from an uploaded
`.docx` or `.eml` file, and builds a prompt for the generation service from
three settings: a tone, a length and, optionally, a quick action. It then
turns each answer into a reply draft, appending the user's signature when it
is non-blank. One page run produces a batch of one to three drafts. Each draft
comes from its own call, and the email text of each draft is marked with its
number when there is more than one. Drafts can be opened for editing, then
saved or cancelled, and all drafts can be downloaded as one text.

The model has five modules:

- `Wrappers` (`wrappers.dfy`): `Option`, standing in for Python's `None`.
- `PyStrings` (`pystrings.dfy`): the Python string behaviour the code relies on.
  - `dict.get` with a default, over the entries of a dict literal in insertion order.
  - `str.strip` with Python's whitespace set.
  - `sep.join`, and `s.split` as its inverse. The code never calls `split`; it serves to prove that a joined text keeps its pieces.
  - The decimal rendering of an `int` inside an f-string, with its inverse.
- `Prompts` (`prompts.dfy`): the pieces of `generate_email_reply` and `analyze_email`.
  - The tone, length and action tables.
  - The reply prompt, written both as a function and as the successive appends the code performs.
  - The finishing step that turns a service outcome into the returned text.
  - The analysis prompt and its result.
- `Extract` (`extract.dfy`): `extract_text_from_docx` and `extract_text_from_eml`, over already-parsed documents. Each has a loop, including the early `break` of the part walk.
- `Session` (`session.dfy`): the logic that the page's `main` function inlines.
  - The quick-action priority chain.
  - The `DraftSession` class: the drafts and the per-draft edit flags, with batch generation, edit, save, cancel and export as methods.
  - The functions those methods are proved against.

The generation service is a parameter `service: string -> Outcome`. It maps a
prompt to either a response, whose text may be missing, or a raised exception
with its message. This loses nothing within one batch:
`Session.DraftPromptsDistinct` proves that the drafts of a batch send pairwise
different prompts.

Every template line of the source's triple-quoted f-strings begins with eight
spaces of indentation. That indentation is part of the prompt, so the model
spells it out as `Prompts.Nl`. The constants keep the source's exact wording,
including the Telugu section of the analysis template.

Generating a new batch does not reset the per-draft edit flags. They live in
the page's session state under keys numbered from one, so
`DraftSession.GenerateBatch` leaves `editMode` unchanged, and a flag set for
draft `k` carries over to the next batch's draft `k`.

## Model

| member | source | states |
|---|---|---|
| PyStrings.DictGetMissing | email_assistant.py:88-89 | `d.get(key, default)` with a key the dict does not hold gives the default |
| PyStrings.DictGetAt | email_assistant.py:88-93 | in a dict without repeated keys, `d.get` (and `d[key]`) of a stored key gives the value stored under it |
| PyStrings.TrimStart | email_assistant.py:117 | `lstrip` leaves a suffix whose removed prefix is all whitespace and which is empty or starts with a non-space |
| PyStrings.TrimEnd | email_assistant.py:117 | `rstrip` leaves a prefix whose removed suffix is all whitespace and which is empty or ends with a non-space |
| PyStrings.StripBlankIff | email_assistant.py:117 | `signature.strip()` is empty (falsy) exactly when every character of the signature is whitespace |
| PyStrings.JoinSplit | email_assistant.py:131 | joining the pieces of `s.split(sep)` with `sep` gives `s` back |
| PyStrings.SplitJoin | email_assistant.py:131 | splitting `sep.join(parts)` at `sep` gives back the parts, when there is at least one part and none contains `sep` |
| PyStrings.NatToString | email_assistant.py:315 | the f-string rendering of a draft number is a non-empty string of decimal digits with no leading zero unless the number is zero |
| PyStrings.ParseNatToString | email_assistant.py:315 | reading back the decimal rendering of `n` gives `n` |
| PyStrings.NatToStringInjective | email_assistant.py:315 | different draft numbers are rendered as different texts |
| Prompts.TablesHaveDistinctKeys | email_assistant.py:60-83 | none of the tone, length and action dicts repeats a key, so each literal defines one entry per key |
| Prompts.KnownSettingsSelected | email_assistant.py:60-93 | every tone and every length in the tables selects its own instruction, and every action key contributes the line `SPECIFIC ACTION: ` followed by its own prompt |
| Prompts.UnknownSettingsFallBack | email_assistant.py:88-89 | a tone missing from the table gives the same prompt as `professional`, and a length missing from the table gives the same prompt as `medium` |
| Prompts.ActionLineOnlyIfKnown | email_assistant.py:92-93 | the prompt equals the no-action prompt exactly when the action is `None` or not a key of the action table |
| Prompts.ComposeReplyPrompt | email_assistant.py:85-107 | the successive appends build exactly the reply prompt: head, then the action line only for a known action, then the email and the fixed instructions |
| Prompts.ReplyPromptInjective | email_assistant.py:95-98 | with the settings fixed, two emails giving the same prompt are the same email |
| Prompts.TextOr | email_assistant.py:114 | the response text when it is present and non-empty, the fallback otherwise; never empty |
| Prompts.Signed | email_assistant.py:116-118 | the reply gets a blank line and the signature appended when the signature is not blank, and is left unchanged otherwise |
| Prompts.SignatureExamples | email_assistant.py:116-118 | an empty and an all-space signature append nothing, and a real one is appended after a blank line |
| Prompts.FinishReply | email_assistant.py:114-122 | a missing or empty response becomes `Unable to generate reply.`; the signature is appended exactly when it is non-blank; an exception gives `Error generating reply: ` and its message, with no signature; the result is never empty |
| Prompts.GenerateEmailReply | email_assistant.py:54-122 | the reply is the finishing step applied to the service's outcome for the reply prompt of the given email and settings |
| Prompts.AnalysisPromptInjective | email_assistant.py:24-43 | two emails giving the same analysis prompt are the same email |
| Prompts.AnalyzeEmail | email_assistant.py:19-52 | a non-empty response text is returned as it is; a missing or empty one gives `Unable to analyze email.`; an exception gives `Error analyzing email: ` and its message |
| Extract.ExtractTextFromDocx | email_assistant.py:124-133 | the paragraphs joined by line breaks in order, or `Error reading DOCX file: ` and the message when the document cannot be opened |
| Extract.DocxJoinExamples | email_assistant.py:128-131 | `Hi`, an empty paragraph and `Thanks` give `Hi\n\nThanks`; an empty document gives the empty text |
| Extract.DocxParagraphsRecoverable | email_assistant.py:128-131 | when no paragraph contains a line break, the extracted text splits back into exactly the paragraphs |
| Extract.FirstPlainIndex | email_assistant.py:148-151 | the position of the first `text/plain` part in walk order: every part before it has another type, and the walk ends there or a plain part stands there |
| Extract.FirstPlainAt | email_assistant.py:148-151 | the index at which the walk loop stops is the first plain index |
| Extract.ExtractTextFromEml | email_assistant.py:135-158 | the three header lines (with `Unknown Sender`, `No Subject`, `No Date` for absent headers), a blank line, and the body: the payload of the first plain part of a multipart message or empty if there is none, or the single payload; `Error reading EML file: ` and the message when the message cannot be read |
| Extract.PlainPartChosenOverHtml | email_assistant.py:147-151 | a message with a plain and an HTML alternative yields the plain part, whichever comes first |
| Extract.EmailLayout | email_assistant.py:155 | when no header value contains a line break, the text splits into exactly the three header lines, an empty line and the lines of the body |
| Session.QuickActionNamesDistinct | email_assistant.py:288-303 | the five quick-action names are different |
| Session.QuickActionPriority | email_assistant.py:288-303 | the action is that of the first pressed button in the order accept, decline, request info, acknowledge, schedule follow-up; there is no action exactly when no button is pressed; generation happens exactly when a button or Generate is pressed; a selected action is always a key of the action table |
| Session.DraftInputsDistinct | email_assistant.py:315-317 | in a batch of more than one draft, different draft numbers send different email texts |
| Session.DraftPromptsDistinct | email_assistant.py:315-322 | in a batch of more than one draft, different drafts send different prompts |
| Session.TabulateAt | email_assistant.py:313-323 | entry `k` of the list built by appending the values for 1 to `count` in order is the value for `k + 1` |
| Session.BatchRepliesAt | email_assistant.py:311-323 | a batch of `count` drafts has exactly `count` entries, and entry `k` is the finished reply to the prompt of draft number `k + 1` |
| Session.OtherDraftsUnaffected | email_assistant.py:313-323 | a different outcome (a failure, say) for one draft's call changes no other draft's text |
| Session.NumberedAppend | email_assistant.py:379-380 | appending a draft appends its block, numbered after the blocks already written |
| Session.NumberedSplit | email_assistant.py:379-380 | the blocks of a list are the blocks of its two halves, the second half numbered on from the first |
| Session.NumberedAt | email_assistant.py:379-380 | element `i` stands, numbered `first + i`, between the blocks before and after it |
| Session.ExportShowsDraft | email_assistant.py:378-380 | the export is the header line, the blocks before draft `i`, the block `=== DRAFT i+1 ===` with draft `i`'s current text, and the blocks after it |
| Session.ExportAfterSave | email_assistant.py:378-380 | after saving text `t` into draft `i`, the export shows `t` as block `i + 1`, and every other draft's block is as before |
| PyStrings.DictGet | email_assistant.py:88-89 | defines `d.get(key, default)` over a dict literal's entries in insertion order for a literal without repeated keys (which `Prompts.TablesHaveDistinctKeys` shows of every table): the value stored under the key, or the default |
| PyStrings.Strip | email_assistant.py:117 | defines `s.strip()` as `rstrip` after `lstrip` over Python's whitespace set |
| PyStrings.Join | email_assistant.py:131 | defines `sep.join(parts)`: empty for no parts, the part itself for one, the parts with `sep` between them otherwise |
| Prompts.ToneInstruction | email_assistant.py:88 | defines the tone line's text: the table entry for the tone, or the `professional` entry |
| Prompts.LengthInstruction | email_assistant.py:89 | defines the length line's text: the table entry for the length, or the `medium` entry |
| Prompts.ReplyPrompt | email_assistant.py:85-107 | defines the reply prompt: the head with tone and length, the action line, then the email and the fixed instructions |
| Prompts.AnalysisPrompt | email_assistant.py:24-43 | defines the analysis prompt: the fixed introduction, the email, then the fixed English and Telugu format |
| Extract.HeaderOr | email_assistant.py:141-143 | defines `msg.get(name, default)`: the header's value when present, the default otherwise |
| Extract.BodyText | email_assistant.py:146-153 | defines the body: the payload of the first plain part of a multipart message, empty when there is none, or the single payload |
| Extract.FormatEmail | email_assistant.py:155 | defines the canonical text: `From:`, `Subject:` and `Date:` lines, a blank line, the body |
| Session.ResolveQuickAction | email_assistant.py:288-303 | defines the if/elif chain: the first pressed button sets the action and forces generation, otherwise no action and the Generate button's state |
| Session.DraftInput | email_assistant.py:315-317 | defines draft `k`'s email text: the content with ` (Draft k variation)` when there are several drafts, the content alone otherwise |
| Prompts.KnownAction | email_assistant.py:92 | defines the condition `action_type and action_type in action_prompts`: an action is given and is a key of the action table |
| Prompts.ActionLine | email_assistant.py:92-93 | defines the appended action line: `SPECIFIC ACTION: ` and the action's prompt after a line break for a known action, nothing otherwise |
| Session.VariationMarker | email_assistant.py:315 | defines the marker ` (Draft k variation)` with `k` in decimal |
| Session.DraftReply | email_assistant.py:316-322 | defines one iteration's draft: the finished reply to the prompt built from draft `k`'s marked email text |
| Session.BatchReplies | email_assistant.py:311-323 | defines the list the batch loop builds: the drafts numbered 1 to `count`, in order |
| Session.ExportHeader | email_assistant.py:378 | defines the export's header line: `Generated Email Replies - `, the timestamp and a blank line |
| Session.DraftBlock | email_assistant.py:380 | defines draft `k`'s block: `=== DRAFT k ===`, a line break, the draft text and a blank line |
| Session.ExportText | email_assistant.py:378-380 | defines the export: the header line with the timestamp, then `=== DRAFT k ===` blocks for the drafts in index order |
| Session.DraftSession.constructor | email_assistant.py:311 | a new session has no drafts and no edit flags set |
| Session.DraftSession.GenerateBatch | email_assistant.py:311-323 | the drafts become the batch of `numDrafts` replies in order, each from its own call with its own marked email text; the edit flags are unchanged |
| Session.DraftSession.RunGenerateStep | email_assistant.py:288-323 | the buttons are resolved by the priority chain; when generation is due, the drafts become the batch for the selected action, and otherwise they are unchanged; the edit flags are unchanged |
| Session.DraftSession.BeginEdit | email_assistant.py:343-344 | only the edit flag of draft `i + 1` changes, to set, so that draft is open for editing; the drafts are unchanged |
| Session.DraftSession.SaveEdit | email_assistant.py:347-358 | callable only while draft `i` is being edited, since the Save button exists only in edit mode; only draft `i` changes, to the edited text, and only its flag changes, to cleared, so the draft is no longer being edited |
| Session.DraftSession.Editing | email_assistant.py:347 | defines the edit-mode test: the flag of draft `k` is present and set, an absent flag reading as not editing |
| Session.DraftSession.CancelEdit | email_assistant.py:347-363 | callable only while draft `i` is being edited, since the Cancel button exists only in edit mode; only the flag of draft `i + 1` changes, to cleared, so the draft is no longer being edited; every draft keeps its text |
| Session.DraftSession.ExportAll | email_assistant.py:378-380 | the accumulated text is the header line with the given timestamp, then one `=== DRAFT k ===` block per current draft in index order |

## Left out

- The generation client, its API key, the model name and dotenv (email_assistant.py:14-17, 45-48, 109-112) are a network call. The model replaces them with the `service` parameter.
- The service is modelled as a function of the prompt, so two identical calls would get the same answer. Within one batch every prompt is different, so this changes nothing there.
- The Streamlit layout, widgets, spinners, tabs, messages, `st.rerun` and the persistence of session state across reruns are user interface. The model keeps only the drafts and flags in memory.
- The document and email parsing libraries are foreign code. A `.docx` arrives as its paragraph texts, an `.eml` as its header map and its parts in walk order with decoded payloads.
- UTF-8 decoding is library behaviour. This covers `errors='ignore'` on payloads and the strict decode of a `.txt` upload. Payloads are taken as already-decoded strings.
- The upload dispatch by file type and name (email_assistant.py:238-251) is not modelled; it only chooses which extractor to call.
- Header lookup in the parsed message is case-insensitive. `Extract.HeaderOr` looks names up exactly as given.
- `datetime.now()` and its formatting depend on the clock. The export takes the timestamp as a string parameter, and the download file name is not modelled.
- The copy, "Generate New Drafts" and "Try Different Tone" buttons have no logic beyond a rerun or a message.
- Session.DraftSession.GenerateBatch: takes any `numDrafts`. The slider's 1 to 3 bound is not required, since the loop works for every count.
- Session.DraftSession.BeginEdit: is callable for a single-draft batch. The page only offers editing when there are several drafts.
- Session.DraftSession.SaveEdit: the code assigns into a list rebuilt on every run, which is then discarded by `st.rerun`. The model stores the text into the session's drafts and does not model the aliasing or the rerun.
- The edit, save and cancel handlers (email_assistant.py:343-364) sit under `if generate_button:` (line 306). A click on one of them starts a rerun in which `generate_button` is false, so as the page is written those handlers are never reached. The model gives them the in-memory meaning the page evidently intends: flags and drafts change as the handlers say.
- Session.QuickActionPriority: with a blank email the page shows neither the buttons nor Generate. The model resolves the buttons whatever the email.
