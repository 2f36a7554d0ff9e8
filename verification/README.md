# Lendsnutri food analysis — a Dafny model

Lendsnutri lets a user submit a food item as a photo, as free text, or both, and shows a
nutritional report produced by a Gemini model. This project models the contract layer of
`analyzeFood` in `services/geminiService.ts` and two small derivations in the result UI:

- **Content-part assembly.** From an optional base64 image and an optional text query,
  `analyzeFood` strips a data-URI prefix from the image and pushes an `inlineData` part
  tagged `image/jpeg`. It then pushes either the labelled query or a fixed
  "analyse this image" instruction. With neither input it throws
  "Nenhuma imagem ou texto fornecido para análise." before any model call. Absent and
  empty strings are the same here, because both checks are JavaScript truthiness tests
  (`Truthy`).
- **The request and the outcome of the model call.** The request carries the model
  name, the parts, the system instruction, JSON output and the declared response schema.
  An empty response text becomes an error. Every `Error` raised inside the `try` is
  re-thrown with the prefix "Erro na IA: ". Any other thrown value becomes
  "Não foi possível analisar o alimento no momento.". The missing-input error is raised
  outside the `try`, so it never gets the prefix.
- **The declared response schema.** It is a constant value, and lemmas relate its
  required lists to its declared properties.
- **The macro chart data** (`components/NutritionChart.tsx`). Four fixed entries, each
  value defaulting to 0, are filtered down to the positive ones.
- **The result card** (`components/AnalysisResult.tsx`). The health-score badge variant
  uses the thresholds 70 and 40. The allergen block appears only for a non-empty list.
  The allergen, pros, cons and tips lists render one keyed item per element, in order.

Modules: `Wrappers` holds `Option` and `Result`. `JsString` holds the `split(',')` of
line 68; its `includes(',')` test is written `',' in s`. `IndexOf` defines `Split`, and
`Join` exists only for the round-trip proofs: line 68 calls neither. `FoodTypes` holds
the record shape. Then come `GeminiService`, `NutritionChart` and `AnalysisResult`. The record type comes from
`../types`, and `types.ts` is not part of this model. `FoodTypes` therefore takes the
record's fields from the response schema. JavaScript numbers are `real`s. A field that
the parsed JSON may lack (a macro, `confidence`, `micronutrients`) is an `Option`.

The model client and `JSON.parse` are parameters of `AnalyzeFood`. The model is a
function from the request to a `ModelReply`: a response whose `text` may be absent, or
a thrown value. The parser is a function from text to a record or to the message of the
`SyntaxError` it throws. `AnalyzeFood` also returns the list of requests it sent, so
"no model call" reads as an empty list.

In three places the code is looser than a strictly typed contract for this layer would
be. This model follows the code in each:

- **Errors.** There are no distinct error kinds (missing input, transport, empty
  response, malformed response). The code throws plain `Error`s that differ only in
  their messages, so the model's errors are message strings.
- **Validation.** An out-of-range `healthScore` or an unknown `processingLevel` is not
  rejected. The code casts the output of `JSON.parse` without any check.
  `FollowsInstruction` states the constraints that the system instruction gives in prose, and `InstructionNotEnforced` proves that `analyzeFood`
  returns a record breaking them unchanged.
- **Prefix stripping.** Nothing removes just "everything up to and including the first
  comma". The code keeps `split(',')[1]`, which is the segment between the
  first comma and the next one. Whatever follows a second comma is dropped.

## Model

| member | source | states |
|---|---|---|
| `JsString.IndexOf` | services/geminiService.ts:68 | the result is the position of the first occurrence of the character, or the length when the string has none |
| `JsString.Split` | services/geminiService.ts:68 | `split(',')` yields at least one piece, no piece holds the separator, and there is exactly one piece iff the string has no separator |
| `JsString.JoinSplit` | services/geminiService.ts:68 | joining the pieces of a split with the separator gives back the original string, so splitting loses nothing |
| `JsString.SplitJoin` | services/geminiService.ts:68 | splitting the join of separator-free pieces gives back exactly those pieces, in order |
| `GeminiService.StripDataUri` | services/geminiService.ts:68 | the cleaned image data never contains a comma, and an image string without a comma passes through unchanged |
| `GeminiService.StripDataUriSegment` | services/geminiService.ts:68 | for a string with a comma, the cleaned data is the segment that starts after the first comma and ends at the next comma or at the end of the string |
| `GeminiService.StripDataUriExample` | services/geminiService.ts:68 | the data URI `data:image/jpeg;base64,AAAA` is cleaned to `AAAA` |
| `GeminiService.ContentParts` | services/geminiService.ts:65-83 | the assembly fails iff neither image nor query is truthy, and then with the missing-input message; otherwise there are two parts with an image and one without |
| `GeminiService.BuildContentParts` | services/geminiService.ts:65-83 | pushing the parts under the source's conditions, including the early throw, yields exactly the assembly policy `ContentParts` |
| `GeminiService.PartCounts` | services/geminiService.ts:65-83 | every successful assembly has exactly one inline-data part iff an image was given, and exactly one text part |
| `GeminiService.ImageFirst` | services/geminiService.ts:67-75 | with an image, the first part is inline data tagged `image/jpeg` whatever MIME type the data URI declared, and its data is the stripped, comma-free string |
| `GeminiService.QueryLast` | services/geminiService.ts:77-78 | with a query, the last part is the text `Alimento para analisar: ` followed by the query, and every part before it is the image part |
| `GeminiService.ImageOnly` | services/geminiService.ts:79-83 | an image without a query gives exactly the image part and the fixed instruction, so no query text appears |
| `GeminiService.ResponseSchemaRequiredDeclared` | services/geminiService.ts:59-62 | the top-level required list has eleven distinct names, each a declared property |
| `GeminiService.ResponseSchemaOptionalFields` | services/geminiService.ts:25-62 | the required names are the declared properties minus `confidence` and `micronutrients`, so `confidence` is declared but not required |
| `GeminiService.MacrosSchemaRequired` | services/geminiService.ts:31-40 | `macros` declares exactly protein, carbs, fat and fiber and requires all four |
| `GeminiService.CatchMessage` | services/geminiService.ts:104-110 | a caught `Error` is re-thrown as `Erro na IA: ` followed by its own message, and only a non-`Error` throw gets the fixed fallback message |
| `GeminiService.ExtractResult` | services/geminiService.ts:98-110 | the call succeeds iff the reply has non-empty text that parses, and then returns the parsed record unchanged; every failure carries the prefix or is the fallback message, and never equals the missing-input message |
| `GeminiService.EmptyResponseError` | services/geminiService.ts:98-101 | an absent or empty response text fails with `Erro na IA: O modelo não retornou um conteúdo válido.` |
| `GeminiService.ThrownErrors` | services/geminiService.ts:104-109 | an `Error` thrown by the model call or by `JSON.parse` fails with its message behind the prefix, and any other throw fails with the fallback message |
| `GeminiService.InstructionNotEnforced` | services/geminiService.ts:103 | a parsed record whose health score or processing level breaks the instruction's constraints is still returned as it is |
| `GeminiService.NoInputMessageUnprefixed` | services/geminiService.ts:77-85 | the missing-input message, raised outside the `try`, does not start with the `Erro na IA: ` prefix |
| `GeminiService.AnalyzeFood` | services/geminiService.ts:8-111 | with no input it fails with the unprefixed missing-input message and sends no request; otherwise it sends exactly one request, which carries the assembled parts, the model `gemini-3-pro-preview`, the system instruction, JSON output and the declared response schema, and it returns that reply shaped by `ExtractResult` |
| `NutritionChart.OrZero` | components/NutritionChart.tsx:12-15 | the `or 0` default gives the macro's value when present and 0 when missing |
| `NutritionChart.Rank` | components/NutritionChart.tsx:11-16 | each of the four chart names has its own position in the fixed order Proteína, Carboidrato, Gordura, Fibra, and any other name has none |
| `NutritionChart.AllEntries` | components/NutritionChart.tsx:11-15 | the unfiltered list is in the fixed order, and each name carries its fixed colour |
| `NutritionChart.KeepPositive` | components/NutritionChart.tsx:16 | the filter keeps exactly the entries with a positive value, each as many times as in the input, as a subsequence of the input (relative order preserved) |
| `NutritionChart.KeepPositiveOrdered` | components/NutritionChart.tsx:16 | a list in chart order stays in chart order once filtered |
| `NutritionChart.ChartData` | components/NutritionChart.tsx:11-16 | at most four entries, in the fixed order, each positive and carrying its name's colour; each macro's entry is present iff its defaulted value is positive |
| `NutritionChart.ChartNamesDistinct` | components/NutritionChart.tsx:11-16 | no name appears twice in the chart data |
| `NutritionChart.ChartValues` | components/NutritionChart.tsx:11-16 | every charted entry is one of the four macros and carries that macro's value after the 0 default |
| `NutritionChart.MacroCharted` | components/NutritionChart.tsx:11-16 | a macro is charted, by name, iff its defaulted value is positive, so a missing, zero or negative macro is dropped |
| `AnalysisResult.ScoreVariant` | components/AnalysisResult.tsx:39 | the badge is `success` iff the score is above 70, `warning` iff it is above 40 and at most 70, and `error` iff it is at most 40 |
| `AnalysisResult.ScoreVariantMonotone` | components/AnalysisResult.tsx:39 | a higher score never gets a worse badge in the order error < warning < success |
| `AnalysisResult.MapIndexed` | components/AnalysisResult.tsx:100-102 | `.map((x, i) => …)` renders one element per input element, in order, keyed by its index |
| `AnalysisResult.AllergenBlock` | components/AnalysisResult.tsx:93-102 | the allergen block exists iff the list is non-empty, and then holds one `error` badge per allergen, in input order |
| `AnalysisResult.ListItems` | components/AnalysisResult.tsx:117-122 | the pros, cons and tips lists render one item per element, in input order, with the text unchanged |
| `AnalysisResult.Render` | components/AnalysisResult.tsx:37-152 | the card shows the food name; the score badge is success, warning or error exactly by the thresholds 70 and 40; the processing level is an `info` badge; the macros are the chart's `data` prop; the allergen block exists iff the list is non-empty and then holds one keyed `error` badge per allergen in order; the pros, cons and tips items are the record's elements, in order, keyed by index |

## Left out

- The Gemini client (`GoogleGenAI` and `generateContent`) is a foreign network client. It is a parameter that only returns a reply or a thrown value. Its timeouts, quotas and the model's behaviour are not modelled.
- `JSON.parse` is a parameter from text to a record or a syntax-error message. JSON syntax and the mapping of JSON values to record fields are not modelled. Because `parse` always yields a complete `NutritionRecord`, replies that parse to a non-object, or to an object missing required fields, are not represented; line 103 returns those unchanged too.
- The API key taken from `process.env.API_KEY` and the build configuration in `vite.config.ts` are not modelled. The code never checks that the key is present.
- `console.error` logging in the `catch` block is output only.
- Async/await is not modelled. There is one suspension point and no concurrency.
- The system instruction's prose is not modelled. `SystemInstruction` keeps only the score range, the processing levels and the language it states.
- `GeminiService.ResponseSchema`: the schema is a map, so the declaration order of its properties is not kept. The schema's `type` tags for the top level and for `macros` are implied by `ObjectSchema`.
- JavaScript numbers are reals. NaN, -0 and floating-point rounding are not modelled. `NutritionChart.OrZero` does not model `NaN || 0`.
- The JSX layout, CSS classes, icons, the Recharts pie and the tooltip's number formatting are not modelled. The text inside the score badge (`Score: n/100`) is not modelled either: `AnalysisResult.Render` keeps only the badge's variant.
- `components/ui/Badge.tsx` is a lookup table of CSS classes. Only its list of variants is kept.
- `AnalysisResult.Render`: the optional header image, the calorie and macro tiles, the description paragraph and the `ESTIMATIVA: {estimatedWeight}` line are not modelled, because they only display record fields.
