# Icon and image prompt styles

A model of the style-selection layer of a presentation add-in that asks an image
generator for pictures. Two registries map small integer keys to style records: each
record carries the display fields the UI shows (name, emoji, description, preview CSS)
and a template that places the caller's subject into a fixed JSON object. Generating a
prompt looks the key up, fills the template, serializes it and puts the instruction
line `Create an image:\n` in front; keys that do not lead to a live template fall back
to a plain prompt.

- `json_values.dfy` (module `JsonValues`): the JSON values the templates are made of.
  An object is an ordered list of members: the serializer writes integer-like keys
  first, in ascending order, and the other keys in insertion order, and no key of these
  templates is integer-like, so the order of the source text is the order written.
  `Get` reads the value at a path of keys, `Put` replaces it; the lemmas `GetPut` and
  `PutGet` show that the two agree.
- `icon_styles.dfy` (module `IconStyles`, after `icon-styles.js`): the four icon styles,
  their templates transcribed member by member in source order, and the count,
  validity, metadata and generation functions.
- `image_styles.dfy` (module `ImageStyles`, after `image-styles.js`): the macro close-up
  style, the three "coming soon" styles, the "No Style" key 0, and the count,
  generation and availability functions.
- `wrappers.dfy` (module `Wrappers`): `Option`, standing for JavaScript's `null`.

A style's `generatePrompt` closure is modelled as a tag (`IconTemplate`,
`ImageTemplate`) that `Render` or `GeneratePrompt` dispatches on. The host serializer
(`JSON.stringify(obj, null, 2)`) is a parameter `stringify: Json -> string` of every
function that produces text, so every property holds whatever the serializer does;
the two "determines the subject" lemmas assume only that it tells apart two values
that differ in a single string leaf (`SeparatesStringLeaves`), which the real
serializer does, since it writes every string leaf out in full. Template subtrees
that do not contain the subject are named constants (`SpotParameters`, `MacroCamera`,
...) holding the literal data; the members before and after a nested `subject` are
the constants `SpotLead`/`SpotTrail`, `PhotoLead`/`PhotoTrail` and
`MacroLead`/`MacroTrail`, in source order.

`image-styles.js` defines no metadata accessor and no validity check (only the count,
generation and availability functions). Style 1's `generatePrompt` serializes its own
template (image-styles.js:214), and `GeneratePrompt` models it there.

## Model

| member | source | states |
|---|---|---|
| IconStyles.Registry | icon-styles.js:6-327 | the registry holds exactly the keys 1, 2, 3, 4, and no two of its styles share a template |
| IconStyles.FallbackPrompt | icon-styles.js:356 | the fallback sentence starts with "Icon of " followed by the subject unchanged, and is 53 characters longer than the subject |
| IconStyles.StyleCount | icon-styles.js:332-334 | the number of registry keys is 4 |
| IconStyles.IsValidStyle | icon-styles.js:365-367 | a key is valid exactly when it is one of the registry keys 1, 2, 3, 4 |
| IconStyles.GetStyleMetadata | icon-styles.js:339-348 | the result is absent exactly when the key is not valid; when present it carries the record's name, emoji, description and preview style, and its type has no template |
| IconStyles.GenerateIconPrompt | icon-styles.js:353-360 | an unknown key gives exactly "Icon of <subject>, clean simple design, centered, high quality"; a registry key gives the instruction line followed by the serialized filled template; the output starts with the instruction line exactly when the key is valid |
| IconStyles.ValidKeysRunToCount | icon-styles.js:332-367 | a key is valid exactly when it lies between 1 and the style count, and exactly when its metadata is present |
| IconStyles.Render | icon-styles.js:358 | the template of every style holds the subject, as a string and unchanged, at that style's subject path |
| IconStyles.SpotIllustrationTemplate | icon-styles.js:13-77 | the spot illustration template holds the subject at `subject.type` and the constant "spot_illustration" at `object` |
| IconStyles.Clay3DTemplate | icon-styles.js:87-150 | the 3D clay template holds the subject at the top-level `object` |
| IconStyles.PhotoRealismTemplate | icon-styles.js:160-240 | the photo realism template holds the subject at `subject.type` |
| IconStyles.IsometricFlatTemplate | icon-styles.js:250-324 | the isometric flat template holds the subject at the top-level `object` |
| IconStyles.OnlySubjectVaries | icon-styles.js:13-325 | every icon template is constant apart from its subject leaf: overwriting that leaf of the template for one subject with another subject gives the template for the other subject |
| IconStyles.SpotOnlySubjectVaries | icon-styles.js:13-77 | the spot illustration template varies only at `subject.type` |
| IconStyles.ClayOnlySubjectVaries | icon-styles.js:87-150 | the 3D clay template varies only at the top-level `object` |
| IconStyles.PhotoOnlySubjectVaries | icon-styles.js:160-240 | the photo realism template varies only at `subject.type` |
| IconStyles.IsometricOnlySubjectVaries | icon-styles.js:250-324 | the isometric flat template varies only at the top-level `object` |
| IconStyles.RegistrySubjectPlacement | icon-styles.js:6-327 | styles 1 and 3 put the subject at `subject.type`, styles 2 and 4 at the top-level `object`; style 1's `object` is the constant "spot_illustration" |
| IconStyles.PromptDeterminesSubject | icon-styles.js:353-360 | for a fixed key, equal prompts come from equal subjects, in the fallback branch and, for a serializer that tells apart values differing in one string leaf, in the template branch |
| ImageStyles.Registry | image-styles.js:6-253 | the registry holds exactly the keys 1, 2, 3, 4; a style is "coming soon" exactly when its key is not 1; a "coming soon" style hands the user prompt back and the live one fills the macro close-up template |
| ImageStyles.NoStyle | image-styles.js:258-263 | the "No Style" option's name is the name of none of the registry's styles |
| ImageStyles.ImageStyleCount | image-styles.js:258-270 | the number of registry keys is 4, and the "No Style" key 0 is not among them |
| ImageStyles.GeneratePrompt | image-styles.js:13-251 | a "coming soon" style returns the user prompt unchanged; the live style returns the instruction line followed by the serialized macro close-up template filled with the subject |
| ImageStyles.GenerateImagePrompt | image-styles.js:278-292 | key 0, a key outside the registry and a "coming soon" style return the user prompt unchanged; key 1 returns the instruction line followed by the serialized macro close-up template filled with the user prompt |
| ImageStyles.IsImageStyleAvailable | image-styles.js:297-301 | a key is available exactly when it is 0 or 1, the only registry key not "coming soon" |
| ImageStyles.RegistryKeysRunToCount | image-styles.js:6-270 | the registry keys are exactly 1 up to the style count |
| ImageStyles.AvailabilityMatchesGeneration | image-styles.js:278-301 | an unavailable key and key 0 return the user prompt unchanged; any other available key returns text starting with the instruction line |
| ImageStyles.ComingSoonPassthrough | image-styles.js:218-288 | styles 2, 3 and 4 are "coming soon" and return the user prompt unchanged |
| ImageStyles.LiveStyleIgnoresUserPrompt | image-styles.js:13-291 | style 1's prompt depends on its subject only, not on the user prompt passed beside it, and generation passes the user prompt as that subject |
| ImageStyles.MacroCloseUpTemplate | image-styles.js:14-213 | the macro close-up template holds the subject, unchanged, at `subject.type` |
| ImageStyles.MacroOnlySubjectVaries | image-styles.js:14-213 | the macro close-up template is constant apart from `subject.type` |
| ImageStyles.MacroTextDeterminesSubject | image-styles.js:14-214 | for a serializer that tells apart values differing in one string leaf, equal serialized macro close-up templates come from equal subjects |
| ImageStyles.PromptDeterminesUserPrompt | image-styles.js:278-292 | for a fixed key and a serializer that tells apart values differing in one string leaf, equal prompts come from equal user prompts |

## Left out

- The output format of `JSON.stringify(obj, null, 2)` (icon-styles.js:359, image-styles.js:214): the serializer belongs to the JavaScript host (ECMA-262, section 25.5.2), so it is a parameter; the model states only the instruction line and the concatenation.
- Keys other than integers: JavaScript turns the key into a property name, so `ICON_STYLES["constructor"]` finds an inherited member while `isValidStyle` (own properties only) rejects it; the model takes `int` keys, where both agree.
- IsImageStyleAvailable: returns `false` for a key outside the registry, where the source returns `undefined`.
- The image-generation request that consumes the prompt and the UI that renders the metadata are not part of these files.
- Sameness of repeated calls (no hidden state) is not stated as a lemma: every Dafny function gives equal results on equal arguments.
- Whether a templated image prompt can coincide with the raw user prompt is not stated: it depends on the serializer's output.
