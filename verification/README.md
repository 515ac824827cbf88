# 3d-gen decision logic in Dafny

This project models the two pieces of decision logic in the 3d-gen prompt-to-3D
application and proves what they promise.

**The prompt classifier** of the front end (`analyzeText` in `src/App.jsx`,
module `App` in `app.dfy`). It lower-cases a prompt and runs three independent
substring scans over it:

- colour: a first-match scan of an ordered keyword table, with gray as the default;
- shape: a first-match chain of synonym pairs, with cube as the default;
- size: 2 for large or big, else 0.5 for small or tiny, else 1.

The result is the record `{shape, color, size, features: []}`. The scan of the
colour table is a loop that stops at the first hit. `App.AnalyzeText` keeps that
loop and is proved equal to the function `App.Classify`. The lemmas are stated
about `App.Classify`. Beside it sits the analysis record that `handleGenerate`
derives from the prompt: its keywords are the lower-cased prompt split on single
spaces, and its complexity depends on a length threshold.

The keyword lists of the three scans are disjoint in every direction (module
`Keywords` in `keywords.dfy`). So a shape or size keyword added to a prompt as a
separate, space-delimited word never changes its colour, and likewise for the
other two scans. A keyword glued to its neighbours can change the result:
"car" before "ed" gives "cared", which holds "red".

**The best-match backend** (`backend/index.js`, module `Backend` in
`backend.dfy`). It covers three things:

- the startup backfill that embeds each catalogue entry still missing an
  embedding, using `description || name || ''` as its text;
- the strict running-maximum scan. It starts from -1, skips entries that have no
  embedding, and lets the earliest entry win on a tie;
- the fixed order of checks in the `/api/generate-model` handler: 400, then 503,
  then 404 and 404.

The sentence encoder is a function from text to a vector. The cosine similarity
is an uninterpreted `real`-valued score, passed in as a parameter. The database
collection is an array of entries. The loaded encoder (`modelUSE`) and that
collection form the state of a `Server` object.

The classifier revision in `src/App.jsx` has 10 colour keywords, 5 shape rules
and the size rule. It has no material-finish or animation rules and no larger
shape table, and the model follows that code. Likewise, the handler's success
response carries the model's id, name, file path and description but not its
score. A catalogue in which no embedded entry beats -1 gets the same 404
"No matching model found" as one with no embedded entries.

## Model

| member | source | states |
|---|---|---|
| `App.Lower` | src/App.jsx:139 | Lower-casing keeps the length and maps every character independently (A–Z to a–z). |
| `App.Includes` | src/App.jsx:157-181 | `includes` holds when the keyword occurs at some position of the text, so a keyword that occurs is never longer than the text. |
| `App.FirstHitFrom` | src/App.jsx:156-161 | The scan finds the first table entry whose keyword occurs in the text. Every earlier keyword is absent, and None means that no keyword occurs. |
| `App.ColorOf` | src/App.jsx:155-161 | With no colour keyword in the text the colour stays gray. Otherwise it is the value of some keyword that occurs in the text. |
| `App.ShapeOf` | src/App.jsx:164-175 | The shape stays cube exactly when no shape keyword occurs in the text. |
| `App.SizeOf` | src/App.jsx:178-183 | The size is one of 0.5, 1 and 2. It stays 1 exactly when no size keyword occurs in the text. |
| `App.Classify` | src/App.jsx:137-191 | `features` is always empty. On the lower-cased prompt, the shape is cube exactly when no shape keyword occurs, the size is 1 exactly when no size keyword occurs, and the colour is gray when no colour keyword occurs. |
| `App.AnalyzeText` | src/App.jsx:137-191 | The loop with `break` over the colour table, followed by the shape and size chains, returns exactly `Classify(text)`. Its features are empty and its size is one of 0.5, 1 and 2. |
| `App.ColorIsFirstTableMatch` | src/App.jsx:142-161 | The colour is the value of the first keyword in table order that occurs in the text. Table order wins over text order. |
| `App.ColorDefault` | src/App.jsx:155 | When no colour keyword occurs, the colour is gray. |
| `App.ClassifyDefaults` | src/App.jsx:185-190 | The function is total and `features` is always empty. The empty prompt gives cube, gray, size 1 and no features. |
| `App.LowerIdempotent` | src/App.jsx:139 | Lower-casing twice gives the same result as lower-casing once. The result has no upper-case letter left. |
| `App.ClassifyIgnoresCase` | src/App.jsx:139 | Classifying a prompt gives the same record as classifying its lower-cased form. |
| `App.ShapeRules` | src/App.jsx:164-175 | For each of the six shapes there is an if-and-only-if: the first rule in the order house/building, car/vehicle, tree/plant, sphere/ball, cylinder/tube with a synonym present decides the shape. The shape is cube exactly when no shape keyword occurs. |
| `App.SizeRules` | src/App.jsx:178-183 | The size is 2 exactly when large or big occurs, even beside small or tiny. It is 0.5 exactly when small or tiny occurs and neither large nor big does. It is 1 exactly when no size word occurs. |
| `App.FirstHitDependsOnlyOnKeywords` | src/App.jsx:156-161 | Two texts that contain the same keywords of the table have the same first hit. |
| `App.ColorDependsOnlyOnColorKeywords` | src/App.jsx:155-161 | The colour depends only on which colour keywords occur. |
| `App.ShapeDependsOnlyOnShapeKeywords` | src/App.jsx:164-175 | The shape depends only on which shape keywords occur. |
| `App.SizeDependsOnlyOnSizeKeywords` | src/App.jsx:178-183 | The size depends only on which size keywords occur. |
| `App.ColorUnchangedByAppendedWords` | src/App.jsx:155-183 | The scans are independent. Appending, after a space, words that contain no colour keyword leaves the colour unchanged. |
| `App.ShapeUnchangedByAppendedWords` | src/App.jsx:155-183 | Appending, after a space, words that contain no shape keyword leaves the shape unchanged. |
| `App.SizeUnchangedByAppendedWords` | src/App.jsx:155-183 | Appending, after a space, words that contain no size keyword leaves the size unchanged. |
| `App.ColorUnchangedByInsertedWords` | src/App.jsx:155-161 | Inserting, between two spaces anywhere in the prompt, words that contain no colour keyword leaves the colour unchanged. |
| `App.ShapeUnchangedByInsertedWords` | src/App.jsx:164-175 | Inserting, between two spaces, words that contain no shape keyword leaves the shape unchanged. |
| `App.SizeUnchangedByInsertedWords` | src/App.jsx:178-183 | Inserting, between two spaces, words that contain no size keyword leaves the size unchanged. |
| `App.ColorUnchangedByPrependedWords` | src/App.jsx:155-161 | Putting words that contain no colour keyword at the front, followed by a space, leaves the colour unchanged. |
| `App.ShapeUnchangedByPrependedWords` | src/App.jsx:164-175 | Putting words that contain no shape keyword at the front, followed by a space, leaves the shape unchanged. |
| `App.SizeUnchangedByPrependedWords` | src/App.jsx:178-183 | Putting words that contain no size keyword at the front, followed by a space, leaves the size unchanged. |
| `Keywords.ShapeAndSizeWordsHoldNoColorKeyword` | src/App.jsx:142-181 | No colour keyword occurs inside any shape or size keyword. |
| `Keywords.ColorAndSizeWordsHoldNoShapeKeyword` | src/App.jsx:142-181 | No shape keyword occurs inside any colour or size keyword. |
| `Keywords.ColorAndShapeWordsHoldNoSizeKeyword` | src/App.jsx:142-181 | No size keyword occurs inside any colour or shape keyword. |
| `Keywords.ShapeOrSizeWordKeepsColor` | src/App.jsx:137-191 | A shape or size keyword added as a separate, space-delimited word never changes the colour: inserted between two spaces, appended after a space, or put at the front before a space. |
| `Keywords.ColorOrSizeWordKeepsShape` | src/App.jsx:137-191 | A colour or size keyword added as a separate, space-delimited word (inserted, appended or put at the front) never changes the shape. |
| `Keywords.ColorOrShapeWordKeepsSize` | src/App.jsx:137-191 | A colour or shape keyword added as a separate, space-delimited word (inserted, appended or put at the front) never changes the size. |
| `Keywords.ExampleGluedKeywordChangesColor` | src/App.jsx:155-168 | The space matters: "ed" is gray, but with the shape keyword "car" glued in front it becomes "cared", which is red. |
| `App.ExampleTableOrderWins` | src/App.jsx:142-161 | The colour scan gives red for "blue and red": table order beats text order. |
| `App.ExampleRuleOrderWins` | src/App.jsx:164-175 | The shape scan gives house for "a car near a building": rule order beats text order. |
| `App.ExampleSubstringMatch` | src/App.jsx:167-168 | The shape scan gives car for "cartoon", because matching is by substring. |
| `App.ExampleLargeBeatsSmall` | src/App.jsx:178-183 | The size scan gives 2 for "a big tiny box": large beats small. |
| `App.Split` | src/App.jsx:202 | `split(' ')` always yields at least one piece. |
| `App.SplitJoin` | src/App.jsx:202 | Joining the pieces with the separator gives back the text, and no piece contains the separator. |
| `App.Analyze` | src/App.jsx:194-205 | There is no record exactly when the prompt is empty, and a record always has at least one keyword. |
| `App.AnalysisRecord` | src/App.jsx:194-205 | An empty prompt produces no record. Otherwise the type is the classified shape, and the complexity is complex exactly when the prompt is longer than 100 characters. The keywords re-join to the lower-cased prompt and contain no space. |
| `Backend.EmbeddingText` | backend/index.js:50 | The text is empty exactly when neither the description nor the name is truthy. A non-empty text is the description or the name. |
| `Backend.BackfillEntry` | backend/index.js:49-55 | One loop step changes no field but the embedding, and leaves an entry that already has an embedding as it was. |
| `Backend.Backfilled` | backend/index.js:48-56 | The backfill keeps the number of entries. |
| `Backend.BackfilledAt` | backend/index.js:48-56 | The backfilled catalogue has the same length, and entry i is the loop step applied to entry i. |
| `Backend.BackfillTouchesOnlyMissing` | backend/index.js:48-55 | Entries that already have an embedding are unchanged. A missing one gets the embedding of its text. No other field of any entry changes. |
| `Backend.BackfillCompletes` | backend/index.js:48-55 | If the encoder never returns an empty vector, every entry has an embedding afterwards. |
| `Backend.BackfillIdempotent` | backend/index.js:46-58 | Running the backfill a second time changes nothing, whatever the encoder returns. |
| `Backend.EmbeddingTextFallsThrough` | backend/index.js:50 | The text is the description if it is truthy, else the name if it is truthy, else the empty string. An empty description falls through to the name. |
| `Backend.Backfill` | backend/index.js:46-58 | The in-place loop leaves the collection equal to `Backfilled` of the old collection. |
| `Backend.FindBest` | backend/index.js:89-98 | The selected entry has an embedding and scores above -1. It has the maximum score among embedded entries and a strictly higher score than every earlier embedded entry. None means that no embedded entry scores above -1. |
| `Backend.BestIsUnique` | backend/index.js:89-98 | At most one entry satisfies the selection condition. |
| `Backend.TieGoesToEarliest` | backend/index.js:94-97 | An embedded entry with the same score as the selected one never comes before it. |
| `Backend.BestOrNoMatch` | backend/index.js:89-102 | Exactly one of two cases holds: some entry is the best, or no embedded entry beats -1. |
| `Backend.Server.constructor` | backend/index.js:36 | The server starts with no encoder loaded. |
| `Backend.Server.LoadEncoder` | backend/index.js:39-43 | The encoder becomes available, then the collection is backfilled. |
| `Backend.Server.GenerateModel` | backend/index.js:70-111 | A missing or empty prompt gives 400 whatever the state. Otherwise, without an encoder the result is 503. Otherwise, an empty collection gives 404 "No models found in database". The result is 404 "No matching model found" exactly when no embedded entry beats -1. The response is a model exactly when the prompt is truthy, the encoder is loaded, the collection is not empty and some embedded entry beats -1; it is then the view of the best entry. |

## Left out

- Rendering and UI (`Scene`, `createModel`, the JSX layout, toasts, the 1-second delay and the scale slider in `src/App.jsx`) are presentation, not decision logic.
- `App.Lower`: JavaScript's `toLowerCase` covers all of Unicode, but the model lower-cases only A–Z. Characters such as the Kelvin sign, which lower-cases to `k`, or `İ`, which changes length, are not modelled.
- `App.AnalysisRecord`: `prompt.length` counts UTF-16 code units, while the model counts characters. The two differ for characters outside the Basic Multilingual Plane.
- Express, CORS, body parsing, Mongoose setup, the schema and the database connection are I/O plumbing. `Model.find()` is the array `Server.store`.
- The Universal Sentence Encoder and its `embed` are a foreign ML library, modelled as a function from text to a vector. Tensor conversion is not modelled.
- The numeric body of `cosineSimilarity` (backend/index.js:61-67) is floating point with square roots. It is an uninterpreted `real` score, so the zero-magnitude guard, the range [-1, 1] and NaN scores (which never beat the current best) are not modelled.
- The startup race, in which `modelUSE` is set before the backfill finishes so that queries can run during the backfill, is concurrency. `LoadEncoder` runs the backfill as one sequential step.
- The generic 500 path (backend/index.js:112-115) only reflects failures of the store or the encoder, which are not modelled.
- `Backend.Server.GenerateModel`: a prompt that is present but not a string (a number, for example) is not modelled. The prompt is an optional string.
