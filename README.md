# AdCraft ad-copy generator, modelled in Dafny

AdCraft is a browser app. A marketer fills in a campaign form: product, industry, audience, platform, tone, call to action and an emoji flag. The app sends a prompt built from that form to a generative model and shows the ad variants that come back. It keeps the last ten result batches in browser storage.

This project models the app's core as Dafny modules:

- `AdTypes` (`types.dfy`): the three enumerations, with their fixed string identifiers, and the two records `AdFormData` and `AdResult`.
- `GeminiService` (`gemini_service.dfy`): the system instruction, the prompt template, the response schema and `generateAdCopy`. The external model, `JSON.parse`, the id source and the clock are oracle parameters.
- `TextLines` (`text_lines.dfy`): joins and splits multi-line template text. It is used to state what the prompt and the copy text look like line by line.
- `AdForm` (`ad_form.dfy`): form validity, the submit-disabled condition, the select options and the single-field change handler.
- `AdResultCard` (`ad_result_card.dfy`): the copy text, the character count the card shows, and a `ResultCard` class holding the `copied` flag.
- `History` (`history.dfy`): the bounded, most-recent-first history and the mobile list.
- `AdCraftApp` (`app.dfy`): the `App` class. Its fields are the form, results, loading flag, error, history and the storage map. Its methods are the app's handlers, each taken as one atomic step. `Valid()` says that the storage key holds the whole current history.

Three behaviours of the code to keep in mind:

- The code does not check that exactly three items came back, or that the required fields are present. `GenerateAdCopy` maps whatever array the parser yields.
- Loading the history does not truncate it. The limit of ten holds only after a generation.
- A stored value that does not parse is not treated as an empty history. At `App.tsx:49` it would throw.

## Model

| member | source | states |
|---|---|---|
| AdTypes.PlatformsEnumerated | types.ts:1-10 | `Platform` has exactly eight members, every member is listed once, and their identifiers are pairwise distinct |
| AdTypes.TonesEnumerated | types.ts:12-20 | `Tone` has exactly seven members with pairwise distinct identifiers |
| AdTypes.CallsToActionEnumerated | types.ts:22-30 | `CallToAction` has exactly seven members with pairwise distinct identifiers |
| AdTypes.PlatformFromId | types.ts:1-10 | reading an identifier back gives the one member with that identifier, and nothing for any other string |
| AdTypes.ToneFromId | types.ts:12-20 | the same for `Tone` |
| AdTypes.CallToActionFromId | types.ts:22-30 | the same for `CallToAction` |
| AdForm.FieldsEnumerated | types.ts:32-40 | the form record has exactly seven fields, with distinct property names |
| AdForm.FieldsDetermineRecord | types.ts:32-40 | the seven fields make up the whole record: records that agree on every field are equal |
| GeminiService.SystemInstruction | services/geminiService.ts:10-20 | definition: the system instruction, line for line; its properties are in RequestVariesOnlyByPrompt |
| GeminiService.EmojiPhrase | services/geminiService.ts:29 | definition: "Yes, use relevant emojis" or "No emojis"; its properties are in PromptLabelledLines |
| GeminiService.FieldLines | services/geminiService.ts:22-29 | definition: the prompt's labelled field lines; its properties are in PromptLabelledLines |
| GeminiService.Prompt | services/geminiService.ts:22-35 | definition: the prompt template; its properties are in PromptLabelledLines and PromptDeterminesForm |
| GeminiService.BuildRequest | services/geminiService.ts:38-59 | definition: the request sent for a form (model id, prompt, system instruction, JSON mime type, schema); its properties are in RequestVariesOnlyByPrompt |
| GeminiService.ToAdResult | services/geminiService.ts:67-75 | definition: one parsed item turned into an ad; its properties are in MapItems and GenerateAdCopy |
| GeminiService.RequestVariesOnlyByPrompt | services/geminiService.ts:10-20 | every request carries the same constant system instruction, so two requests differ only when their prompts differ |
| GeminiService.PromptLabelledLines | services/geminiService.ts:22-35 | split into lines, the prompt has each of the seven form fields on its own labelled line; the emoji line reads "Yes, use relevant emojis" or "No emojis" depending on the flag |
| GeminiService.PromptDeterminesForm | services/geminiService.ts:22-35 | for single-line text fields, equal prompts come only from equal forms: no field is lost from the prompt |
| GeminiService.SchemaRequiresCopyFields | services/geminiService.ts:45-57 | the schema requires exactly headline, body and ctaLine; explanation is declared but optional |
| GeminiService.MapItems | services/geminiService.ts:64-75 | one `AdResult` per parsed item, in the same order: text fields copied unchanged, the item's id and timestamp added, and the form attached as metadata |
| GeminiService.GenerateAdCopy | services/geminiService.ts:7-81 | succeeds exactly when the call returns a non-empty text that parses. On success it holds one result per parsed item, with fields copied, metadata equal to the submitted form, and ids and timestamps from the sources. Every failure (thrown call, absent or empty text, parse error) gives the single message "Failed to generate ad copy. Please try again." |
| GeminiService.BatchIdsDistinct | services/geminiService.ts:68 | ids within a batch are distinct whenever the id source never repeats; the service adds no uniqueness of its own |
| AdForm.EventValue | components/AdForm.tsx:19 | definition: `checked` for a checkbox, the value text otherwise; its properties are in CheckboxStoresChecked and TextInputStoresValue |
| AdForm.ApplyChange | components/AdForm.tsx:14-21 | the handler writes the event's value under the event's field name and leaves every other field unchanged; it yields a record exactly when the name is a field and the value fits it |
| AdForm.Set | components/AdForm.tsx:17-20 | overwriting one field changes that field to the value and keeps the other six |
| AdForm.CheckboxStoresChecked | components/AdForm.tsx:19 | a checkbox event stores its checked state, whatever its value text |
| AdForm.TextInputStoresValue | components/AdForm.tsx:19 | a text-input event stores the input's value in its own field only |
| AdForm.SelectingPlatformOption | components/AdForm.tsx:94-103 | the platform select offers the eight platform identifiers in declaration order, and choosing option i sets the platform to member i and nothing else |
| AdForm.SelectingToneOption | components/AdForm.tsx:116-125 | the tone select offers the seven tone identifiers in declaration order, and choosing option i sets the tone to member i and nothing else |
| AdForm.SelectingCallToActionOption | components/AdForm.tsx:139-148 | the call-to-action select offers the seven identifiers in declaration order, and choosing option i sets the CTA to member i and nothing else |
| AdForm.IsFormValid | components/AdForm.tsx:23 | definition of `isFormValid`; its properties are in ValidityRule |
| AdForm.SubmitDisabled | components/AdForm.tsx:173 | definition of the `disabled` condition; its properties are in SubmitRule |
| AdForm.ValidityRule | components/AdForm.tsx:23 | the form is valid iff product name and industry are both non-empty; audience, platform, tone, CTA and emojis play no part |
| AdForm.SubmitRule | components/AdForm.tsx:173 | submit is disabled iff product name or industry is empty, or a generation is loading |
| AdResultCard.FullText | components/AdResultCard.tsx:12 | definition of `fullText`; its properties are in FullTextLayout, FullTextIgnoresOtherFields, FullTextSplitsBack and DisplayedLength |
| AdResultCard.DisplayedLength | components/AdResultCard.tsx:33 | the character count shown equals the lengths of headline, body and ctaLine plus 4 |
| AdResultCard.FullTextLayout | components/AdResultCard.tsx:12 | the copy text is the headline, a blank line, the body, a blank line, and the ctaLine, each at its own offset |
| AdResultCard.FullTextIgnoresOtherFields | components/AdResultCard.tsx:12 | explanation, id, timestamp and metadata never affect the copy text |
| AdResultCard.FullTextSplitsBack | components/AdResultCard.tsx:12 | for single-line parts the copy text splits back into headline, "", body, "", ctaLine |
| AdResultCard.ResultCard.constructor | components/AdResultCard.tsx:10 | a new card starts with `copied` false |
| AdResultCard.ResultCard.HandleCopy | components/AdResultCard.tsx:14-21 | the copy text is what is written to the clipboard; `copied` becomes true only after a successful write, and a failed write leaves it unchanged |
| History.PushHistory | App.tsx:66 | the new history has length min(old + 1, 10); its first entry is the new batch, and entry i+1 is old entry i |
| History.PushAllLength | App.tsx:66 | after n ≥ 1 generations the history length is min(n + old length, 10) |
| History.PushAllAt | App.tsx:66 | after a run of pushes, entry i is the i-th newest pushed batch, or else old entry i minus the number pushed |
| History.PushAllKeepsNewest | App.tsx:66 | after any run of generations the history holds the newest batches, newest first, then the older history while room remains |
| History.NewestFirst | App.tsx:66 | the most recently generated batch is always first |
| History.MobileHistory | App.tsx:211 | the mobile list shows the first min(length, 4) history entries, unchanged and in order |
| AdCraftApp.VariantLabel | App.tsx:198 | definition of the card label `Variant ` plus the letter at 65 + index; its properties are in VariantLabels |
| AdCraftApp.VariantLabels | App.tsx:198 | cards 0, 1 and 2 read "Variant A", "Variant B" and "Variant C", and no two cards share a label |
| AdCraftApp.InitialForm | App.tsx:29-37 | definition of `initialFormState`; its properties are in InitialFormInvalid and HandleClear |
| AdCraftApp.InitialFormInvalid | App.tsx:29-37 | the default form is invalid, so submit starts out disabled |
| AdCraftApp.ShownError | App.tsx:68 | the shown error is the thrown message, or "Something went wrong." when that message is empty; it is never empty |
| AdCraftApp.App.constructor | App.tsx:39-55 | start-up state is the default form, no results, not loading and no error. The history is the stored one, or empty when nothing is stored, and the persistence effect writes it back under `adcraft_history_v1` |
| AdCraftApp.App.PersistHistory | App.tsx:53-55 | the storage key gets the whole current history; nothing else changes |
| AdCraftApp.App.StartGeneration | App.tsx:58-60 | loading becomes true, the error is cleared and the results are emptied; form, history and storage stay |
| AdCraftApp.App.CompleteGeneration | App.tsx:62-71 | on success, the results become the batch, the history becomes the pushed history and storage is rewritten. On failure, the error is the shown message and the results, history and storage are unchanged. Loading ends false on both paths |
| AdCraftApp.App.HandleGenerate | App.tsx:57-72 | one full generation for the current form. On success, the results are the generated batch, all carrying the current form as metadata, and the history is pushed and persisted. On failure, the results are empty, the error is the service's fixed message, and history and storage are unchanged |
| AdCraftApp.App.ClickSubmit | components/AdForm.tsx:171-173 | a click runs a generation only when submit is enabled, with the same outcome as HandleGenerate on success and on failure; while disabled nothing changes |
| AdCraftApp.App.HandleClear | App.tsx:74-78 | the form resets to the defaults (empty texts, Instagram, Friendly, Shop Now, emojis on). Results and error are cleared; loading, history and storage are unchanged |
| AdCraftApp.App.RestoreFromHistory | App.tsx:80-86 | results become the group; the form becomes the first ad's metadata only when the group is non-empty; history, error and loading are untouched |
| AdCraftApp.App.HandleChange | components/AdForm.tsx:14-21 | the form becomes the handler's result for the event; the other state is unchanged |

## Left out

- The model client and its `generateContent` call are not modelled. `GenerateAdCopy` takes the call as an oracle `call: Request -> Reply`. The reply is a text, an absent text, or a thrown error.
- `JSON.parse` and the array check done by `map` are an oracle `parse`. It returns the items, or nothing when parsing fails, the value is not an array, or an element is `null` (reading its fields throws inside `map`).
- GeminiService.MapItems: parsed items carry string `headline`, `body` and `ctaLine`. An item missing a required field, or holding a non-string, would put `undefined` or that value into the ad. The typed model cannot represent this.
- `crypto.randomUUID()` and `Date.now()` are functions `ids` and `clock` of the item's position. No uniqueness is claimed beyond what `ids` supplies.
- The `temperature: 0.8` setting is not modelled. It is a floating-point constant with no logic attached.
- Logging through `console.error` is not modelled.
- `localStorage` and JSON serialisation: storage is a map from key to history value.
- A stored value that fails to parse would throw at start-up. It is not representable, and neither is a stored empty string.
- Asynchronous sequencing and React re-rendering: each handler is one atomic step. `handleGenerate` is `StartGeneration`, the service call, then `CompleteGeneration`.
- The theme and dark mode, `window.scrollTo`, the clipboard API, the two-second reset of `copied`, the header and all markup and styling are presentation and browser I/O.
- The desktop history sidebar lists every entry. Its rendering is presentation.
- AdResultCard.DisplayedLength: counts Unicode characters. JavaScript's `length` counts UTF-16 code units, so characters outside the Basic Multilingual Plane count once here and twice in the browser.
- AdCraftApp.VariantLabel: requires `index < 0xD800 - 65`. `String.fromCharCode` wraps modulo 65536 and can produce surrogate code units, which a Dafny `char` cannot hold. Result lists are far shorter than this.
- AdCraftApp.App.HandleChange: requires an event that one of the form's inputs can produce: a known field name, and a value the field can hold. JavaScript would store any other value untyped.
- The history limit of ten is not an invariant of `App`, because the code does not truncate a history loaded from storage.
