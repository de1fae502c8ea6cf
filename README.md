# OCR worker core, modelled in Dafny

This project models the logic owned by the recognition worker `OCRThread`
of the OCR desktop application (`main.py`). The worker loads an image,
guards its size and reduces it to gray. It builds the Tesseract options from
the settings and asks the engine for the text and the per-token confidences.
It averages those confidences and reports progress, preview, result or error
signals. Beside `run` it also has a spell-correction routine
(`post_process_text`) that rewrites unknown tokens with a dictionary's first
suggestion. `run` never calls that routine, even though the window collects
a `post_process` setting.

Everything foreign is an abstract parameter. Image decoding is a function
from a path to an optional image. The colour-to-gray conversion is a
function from an image to a converted image or a raised message. The two engine calls are functions from an image and an
option string to a result or a raised message. The dictionary is a pair of
functions `check` and `suggest`. The clock is a timestamp parameter.

Modules, one per component:

- `Results` (results.dfy): `Result` (a value or the message of a raised
  exception) and `Option`.
- `Text` (text.dfy): Python's `s.split(sep)`, `s.split()` and
  `sep.join(parts)`, with their round trips.
- `SpellCorrection` (spelling.dfy): the specification of
  `post_process_text` and its properties.
- `Confidence` (confidence.dfy): the confidence aggregation.
- `EngineConfig` (config.dfy): the engine-mode table, the decimal formatting
  and the option string `"--oem N --psm M"`, with a parser as its partner.
- `Preprocess` (preprocess.dfy): `preprocess_image`, meaning the size guard
  and the channel branch.
- `Worker` (worker.dfy): the class `OcrThread`. It holds the signal trace and
  the engine-call log. `Run` is proved against the step function `RunSpec`;
  the stages after the preview are its helper `Recognize`, proved against
  `RecognitionSpec`. `PostProcessText` is the nested loop proved against
  `SpellCorrection.PostProcessed`. The module also holds the ordering
  guarantees of the signals.

Behaviour of the code worth knowing:

- The code emits `Progress(100)` after the result signal, so the result is
  not the last signal of a successful run. `NothingAfterTerminal` states
  that a result is followed by `Progress(100)` and nothing else, and that an
  error is always last.
- Spell correction is never applied by a run. `RunSuccess` states that the
  reported text is the engine's text, whatever `postProcess` says.
- The size guard rejects only more than 1e8 samples (`image.size > 1e8`).
  Exactly 1e8 samples are accepted.
- Out-of-range settings indices are not validated. The code indexes a Python
  list, so the indices -3..-1 wrap around and any other out-of-range index
  raises `IndexError`. The run turns that into an error signal after
  `Progress(40)`, before any engine call.
- Unpacking `height, width = processed_image.shape` raises unless the
  preprocessed image is two-dimensional. The run then reports an error after
  `Progress(10)`, with no preview.

## Model

| member | source | states |
|---|---|---|
| Text.Split | main.py:58 | `s.split('\n')` always yields at least one piece, and no piece holds the separator |
| Text.Words | main.py:62 | every token of `line.split()` is non-empty and free of whitespace |
| Text.WordsOfEmpty | main.py:62 | empty text has no tokens |
| Text.WordsSkipSpace | main.py:62 | a leading whitespace character produces no token: the tokens are those of the rest |
| Text.WordsOfWord | main.py:62 | a non-empty, whitespace-free text is its own single token |
| Text.WordsCons | main.py:62 | a token followed by a whitespace character is the first token, and the rest is split on its own; with the two equations above this fixes the tokens of every text |
| Text.Join | main.py:79-81 | no pieces join to the empty text; the joined text starts with the first piece and, when there are several pieces, holds the separator right after it |
| Text.SplitJoin | main.py:79-81 | splitting a join of separator-free pieces gives the pieces back |
| Text.JoinSplitLines | main.py:58-81 | `'\n'.join(s.split('\n')) == s` for every text |
| Text.WordsJoin | main.py:62-79 | `' '.join(tokens).split() == tokens` for a list of whitespace-free, non-empty tokens |
| SpellCorrection.CorrectWord | main.py:65-77 | a token of at most 2 characters, or one the dictionary accepts, is kept; a replaceable token (longer than 2, rejected, with suggestions) becomes the first suggestion, so a token that changes is one of the dictionary's suggestions for it |
| SpellCorrection.PostProcessed | main.py:55-84 | if no suggestion holds a line break, the output has as many lines as the input |
| SpellCorrection.LineCount | main.py:58-81 | if no suggestion holds a line break, the output has as many lines as the input, and line i is the corrected line i |
| SpellCorrection.LineShape | main.py:61-79 | if suggestions are single tokens, output line i has as many tokens as input line i. A token is replaced by the first suggestion exactly when it is longer than 2, rejected by `check` and `suggest` is non-empty; otherwise it is kept, so short tokens keep their position verbatim |
| SpellCorrection.AcceptedTextIsCollapsed | main.py:58-81 | when every token is short or accepted, the output is the input with intra-line whitespace collapsed |
| SpellCorrection.CollapsedKeepsTokens | main.py:61-79 | collapsing keeps the number of lines and every line's tokens |
| SpellCorrection.CollapsedIdempotent | main.py:58-81 | collapsing twice equals collapsing once |
| SpellCorrection.PostProcessIdempotent | main.py:55-84 | on text whose every token is short or accepted, post-processing twice equals post-processing once |
| Worker.OcrThread.PostProcessText | main.py:55-84 | the loops over lines and tokens return exactly `PostProcessed(dictionary, text)` |
| Confidence.Kept | main.py:129 | the kept entries are no more than the column's and none of them is -1 |
| Confidence.MeanConfidence | main.py:129-130 | when nothing is kept the aggregate is 0; otherwise the aggregate times the number of kept entries is their sum, so it is their mean |
| Confidence.KeptDropsOnlySentinel | main.py:129 | the kept entries are the input's entries with every -1 removed and every other value kept as often as it occurs, negatives included |
| Confidence.KeptMembership | main.py:129 | a value is kept if and only if it occurs and is not -1 |
| Confidence.AllSentinelsMeanZero | main.py:130 | an all-sentinel or empty column keeps nothing and averages to 0 |
| Confidence.MeanInRange | main.py:129-130 | if entries are -1 or in 0..100, the aggregate is in 0..100 |
| Confidence.MeanExamples | main.py:129-130 | [90,-1,70,-1] gives 80; [-1,-1] gives 0; [-5,-1,15] gives 5 because -5 counts |
| EngineConfig.Digits | main.py:117 | the decimal numeral is non-empty and all digits; it has one digit exactly when the number is below 10, and it starts with 0 only for 0 itself, so there are no leading zeros |
| EngineConfig.DecimalString | main.py:117 | `str(n)` is never empty and starts with a minus sign exactly when n is negative |
| EngineConfig.DecimalIsWord | main.py:117 | `str(n)` is a single whitespace-free token |
| EngineConfig.DigitsRoundTrip | main.py:117 | reading a formatted natural number back gives the number |
| EngineConfig.DecimalRoundTrip | main.py:117 | reading a formatted signed int back gives the int |
| EngineConfig.Oem | main.py:116-117 | indexing the table [1, 1, 3] succeeds exactly for the indices -3..2 that Python accepts, and yields engine mode 1 or 3 |
| EngineConfig.ConfigString | main.py:116-117 | the option string is built exactly when the table lookup succeeds; otherwise the raised message is IndexError's "list index out of range" |
| EngineConfig.OemTable | main.py:116-117 | indexes 0 and 1 give engine mode 1, index 2 gives 3, -1 wraps to 3; the lookup fails exactly outside -3..2 |
| EngineConfig.ConfigTokens | main.py:117 | the option string is the four tokens "--oem", N, "--psm", M |
| EngineConfig.ConfigRoundTrip | main.py:116-117 | the option string exists exactly when the lookup succeeds; it parses back to the table's mode and the segmentation index plus one |
| EngineConfig.ConfigExample | main.py:116-117 | (2,3) gives "--oem 3 --psm 4", (0,0) gives "--oem 1 --psm 1", and (3,0) raises |
| Preprocess.PreprocessImage | main.py:35-53 | the result is an error exactly when the element count exceeds 1e8 (then "Image too large to process") or a three-dimensional image's conversion raises (then its own error, re-raised); otherwise a three-dimensional image is converted to gray and any other image is returned unchanged |
| Preprocess.SizeGuard | main.py:38-43 | for an image over the bound the outcome does not depend on the conversion, not even on whether it raises, so the guard comes before any conversion |
| Preprocess.SizeGuardBoundary | main.py:38-39 | 10000x10000 samples are accepted; 1e8+1 samples and 10000x10000x3 samples are rejected |
| Preprocess.OutputIsTwoDimensional | main.py:42-50 | for a 2-D or 3-D input and a conversion that yields 2-D, the output is 2-D with the input's height and width |
| Worker.OcrThread.constructor | main.py:25-31 | a new worker holds its path, settings and dictionary and has emitted nothing and called no engine |
| Worker.OcrThread.Emit | main.py:20-23 | emitting a signal appends it to the trace |
| Worker.OcrThread.ImageToString | main.py:120 | the text call is logged with its image and options and returns the engine's answer |
| Worker.OcrThread.ImageToData | main.py:125-126 | the data call is logged with its image and options and returns the engine's confidence column |
| Worker.UnpackHeightWidth | main.py:107 | unpacking into height and width succeeds exactly for a two-dimensional image, and then height times width is its element count |
| Worker.RunSpec | main.py:94-145 | a run asks the engine at most twice, and only about an image that loaded and passed the size guard |
| Worker.RecognitionSpec | main.py:112-141 | the stages after the preview ask the engine at most twice |
| Worker.OcrThread.Run | main.py:94-145 | a run appends exactly the signals and engine calls of `RunSpec` |
| Worker.OcrThread.Recognize | main.py:112-141 | the stages after the preview append exactly the signals and engine calls of `RecognitionSpec` |
| Worker.RunIsWellOrdered | main.py:94-145 | whatever the collaborators do, a run has exactly one Result or Error and never both; progress never decreases; preview comes at most once and before any result; an error is last; a result is followed only by Progress(100) |
| Worker.RecognitionIsWellOrdered | main.py:101-141 | Progress(10) and the preview followed by the signals of the later stages keep the ordering guarantees |
| Worker.RunLoadFailure | main.py:97-99 | an image that cannot be decoded gives exactly [Error("Failed to load image")] and no engine call |
| Worker.RunConversionFails | main.py:42-53 | a colour image whose conversion raises gives exactly [Progress(10), Error(that message)], with no preview and no engine call |
| Worker.RunTooLarge | main.py:101-104 | an image over the bound gives exactly [Progress(10), Error("Image too large to process")] and no engine call |
| Worker.EngineCallsAfterGuard | main.py:104-126 | the engine is called only after the size guard passed; both calls use the preprocessed image and the same option string, text call first |
| Worker.RunSuccess | main.py:94-141 | when every stage succeeds, the signals are P10, Preview, P40, P70, Result, P100. The result holds the engine text unchanged, the mean confidence, the timestamp and the settings unchanged |
| Worker.RunFailure | main.py:143-144 | when some stage fails, the last signal is an error and no result is emitted |

## Left out

- The window class `AdvancedOCRApp` (main.py:148-375): widgets, style sheets, dialogs, pixmap scaling and message boxes are presentation only.
- Qt thread and signal mechanics (main.py:19-23, 332-337): a signal emission is modelled as an append to `trace`, and there is no concurrency.
- `closeEvent` on the worker (main.py:87-92): it refers to an attribute the worker does not have and is toolkit glue.
- The hard-coded Tesseract path (main.py:26): environment configuration.
- `cv2.imread`, `cv2.cvtColor`, `pytesseract.image_to_string`, `pytesseract.image_to_data` and the enchant dictionary: foreign libraries, modelled only as abstract function parameters. The gray weighting is floating point.
- The `QImage` built for the preview (main.py:107-109): the preview signal carries the gray image itself, and a failure to build the `QImage` is not modelled.
- `json.dumps` (main.py:140): the result signal carries the record, not its JSON text.
- `datetime.now()` (main.py:136): the timestamp is a parameter of `Run`.
- Logging (main.py:52, 83, 145): diagnostics only.
- Dictionary failures: `check` and `suggest` are total functions here, so the re-raise in main.py:82-84 has no counterpart in the model.
- Confidence entries: the engine's confidence column is modelled as integers with -1 as the sentinel. The code compares each entry with the text `'-1'` and parses the rest with `int`. An entry that `int` cannot parse would raise, and that case is not modelled.
- Confidence.MeanConfidence: the aggregate is an exact `real`. Python computes a floating-point quotient, and returns the integer 0 rather than 0.0 when nothing is kept.
- The denoise, deskew and threshold settings are carried in `Settings` but never used, as in the code.
- The exact wording of Python's unpacking error message depends on the interpreter version. The model uses one fixed wording.
