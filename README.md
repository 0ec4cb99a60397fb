# Lottery number generator API — verified model

The service answers `POST /generar` with a sorted, comma-separated string of
distinct random integers drawn from an inclusive range `[limiteinferior,
limitesuperior]`. Its one piece of logic is the generator
`generar_numeros_aleatorios(inferior, superior, cantidad)`:

- it returns `None` when `inferior >= superior`;
- it lowers `cantidad` to the size of the range, `superior - inferior + 1`;
- it draws that many values without replacement with `random.sample`;
- it turns the `ValueError` that `random.sample` raises for a negative count into `None`;
- it sorts the draw and joins the decimal forms with `,`.

The endpoint handler `generar_numeros` converts the three request fields with
`int(...)` (a missing key is 0). It answers "400" when a conversion raises
`ValueError`/`TypeError` or the generator returns `None`. It answers "500" for
any other exception and "200" with the generated text otherwise, the empty
text included.

The model is pure Dafny: functions for the operations and lemmas for what they
promise.

- `wrappers.dfy`: `Option`, standing for Python's `None`.
- `text.dfy`: `str` on integers and `",".join`, plus a reference reader `ParseList`. The reader splits on `,` and parses each piece as a decimal integer. It reads the empty text as the empty list.
- `sorting.dfy`: `sorted`, as an insertion sort.
- `sampler.dfy`: the generator. Its outcome is a `Generation`: a returned text, a returned None, or an exception it does not catch. `random.sample` is not a function of its inputs. The list it returned is therefore a parameter `drawn`. The precondition (`SampleOracle`) admits exactly the lists `random.sample` may return: `k` pairwise-distinct members of the population. It constrains `drawn` only when the call succeeds. Every contract thus holds for every possible draw.
- `handler.dfy`: the status and `resultado` selection of `generar_numeros`. A request is a `Body`. It is either a JSON object whose three keys are each missing or present, or something on which `data.get` raises. Each present value is abstracted to the outcome of `int(...)` on it.

A negative count is not an empty sample: `random.sample` raises ValueError,
the generator returns None and the handler answers "400" with the
invalid-range message (`GenerarNumerosAleatorios`, `NegativeCountIs400`).

A range of more than `sys.maxsize` values (2^63 - 1 on 64-bit CPython, the
constant `MaxSize`) is not a success either. `random.sample` first takes
`len(range(inferior, superior + 1))`, and that raises OverflowError. The
generator catches only ValueError, so the handler's outer `except` answers
"500". This happens before the count is checked, so it applies whatever
`cantidad` is.

## Model

| member | source | states |
|---|---|---|
| `Sampler.GenerarNumerosAleatorios` | app.py:15-35 | It raises OverflowError exactly when `inferior < superior` and the range has more than `MaxSize` values. It returns None exactly when `inferior >= superior`, or the range fits and `cantidad < 0`. A returned text reads back as `min(cantidad, superior - inferior + 1)` values. They are strictly ascending, each lies in `[inferior, superior]`, and as a multiset they equal the drawn values. |
| `Sampler.ClampedCount` | app.py:23-25 | The effective count is never above the range size or the request, and it equals one of the two, so it is their minimum. |
| `Sampler.RandomSample` | app.py:28-32 | `random.sample` raises OverflowError exactly when the population is longer than `MaxSize`. Otherwise it raises ValueError exactly when `k < 0` or `k` exceeds the population. Otherwise it gives `k` distinct members of the population. |
| `Sampler.PyRange` | app.py:30 | `range(start, stop)` has `stop - start` elements, `start + i` at position `i`, and is empty when `start >= stop`. |
| `Sampler.FillsRange` | app.py:23-35 | A strictly ascending list of `hi - lo + 1` values from `[lo, hi]` is exactly `lo, lo+1, …, hi`. |
| `Sampler.FullRangeWhenCountCoversRange` | app.py:23-35 | With `inferior < superior` and `cantidad >= superior - inferior + 1`, every possible draw yields the whole range in order. The one exception is a range longer than `MaxSize`, which raises OverflowError. An over-large count is never a ValueError. |
| `Sampler.ZeroCountIsEmptyText` | app.py:30-35 | A zero count with valid bounds yields the empty text, which is not None. The one exception is a range longer than `MaxSize`, which raises OverflowError. |
| `Sampler.OneToFiveClamped` | app.py:15-35 | `(1, 5, 100)` returns `"1,2,3,4,5"` for every possible draw. |
| `Sampler.WidestRangeOverflows` | app.py:28-32 | Bounds `0` and `sys.maxsize` raise OverflowError, whatever the count. |
| `Sampler.RangoDisponible` | app.py:23 | `rango_disponible` is the number of elements of `range(inferior, superior + 1)`, and at least 2 for valid bounds. |
| `Sorting.Sort` | app.py:35 | `sorted` returns a permutation of its input (same multiset). |
| `Sorting.SortAscending` | app.py:35 | `sorted` returns an ascending permutation of its input. |
| `Sorting.SortDistinct` | app.py:30-35 | Sorting a draw without repeats gives a strictly ascending list. |
| `Text.IntToString` | app.py:35 | `str(n)` is non-empty, holds no `,`, and starts with `-` exactly when `n` is negative. |
| `Text.ParseIntToString` | app.py:35 | Reading `str(n)` as a decimal integer gives back `n`, negatives included. |
| `Text.SplitJoin` | app.py:35 | Splitting on `,` undoes `",".join` of a non-empty list of comma-free pieces. |
| `Text.ParseRender` | app.py:35 | Splitting the joined text on `,` and parsing each piece gives back the list. The text is empty exactly when the list is. |
| `Text.Join` | app.py:35 | `",".join` of no pieces is empty. Otherwise the text starts with the first piece, followed by a `,` when more pieces follow. Its inverse, `SplitJoin`, carries the rest. |
| `Text.Render` | app.py:35 | `",".join(map(str, xs))` is empty exactly when `xs` is, and starts with `-` exactly when the first value is negative. Its full meaning, that it parses back to `xs`, is carried by `ParseRender`. |
| `Handler.Coerce` | app.py:48-50 | A missing key converts to the integer 0. |
| `Handler.Convert` | app.py:47-59 | Conversion succeeds exactly when all three fields convert to integers, and it yields those integers. Otherwise the first field that fails, taken in the order `limiteinferior`, `limitesuperior`, `cantidad`, decides: ValueError/TypeError gives `Invalid`, any other exception gives `Failed` with that exception's text. |
| `Handler.FirstFailure` | app.py:47-50 | The first outcome that is not an integer, and only such an outcome. Every outcome before it is an integer, and there is none exactly when all outcomes are integers. |
| `Handler.FirstFailureOfThree` | app.py:48-50 | For the three fields, the first failure is `limiteinferior`'s if it fails, then `limitesuperior`'s, then `cantidad`'s. |
| `Handler.GenerarNumeros` | app.py:43-92 | `codigo_status` is the decimal form of the HTTP status, which is 200, 400 or 500. `resultado` is empty unless the status is 200. The status is 500 exactly in three cases: the body is not an object, a conversion raises another exception, or valid bounds span more than `MaxSize` values. It is 200 exactly when all fields convert, `inferior < superior`, the range fits `MaxSize` and `cantidad >= 0`. A 200 `resultado` reads back as the clamped number of strictly ascending values within the bounds. |
| `Handler.UnparsableFieldIs400` | app.py:47-59 | When the first failing field is rejected by `int` with ValueError/TypeError, the answer is "400" with an empty `resultado` and the invalid-number message. |
| `Handler.InvalidRangeIs400` | app.py:62-72 | Converted bounds with `inferior >= superior` give "400", an empty `resultado` and the invalid-range message. |
| `Handler.NegativeCountIs400` | app.py:28-32 | A negative count gives the invalid-range "400", not an empty success. The one exception is valid bounds spanning more than `MaxSize` values, which give the overflow 500. |
| `Handler.OverflowingRangeIs500` | app.py:84-92 | Valid bounds spanning more than `MaxSize` values give "500" carrying the OverflowError text, whatever the count. |
| `Handler.OtherConversionErrorIs500` | app.py:84-92 | When the first failing field raises an exception other than ValueError/TypeError, the answer is "500" carrying that exception's text. |
| `Handler.SuccessCarriesGeneratedText` | app.py:75-82 | Whenever the generator returns a text, the answer is "200" with exactly that text as `resultado`. |
| `Handler.EmptyBodyIs400` | app.py:48-50 | An object with none of the keys reaches the generator as `(0, 0, 0)` and gets the invalid-range "400". |
| `Handler.ZeroCountIs200` | app.py:75-82 | A zero count with valid bounds gives "200" with an empty `resultado`. The one exception is a range longer than `MaxSize`, which gives "500". |
| `Handler.OneToTenFive` | app.py:43-82 | `{1, 10, 5}` gives "200" whose `resultado` reads as five strictly ascending values in `[1, 10]`. |
| `Handler.ReversedBoundsIs400` | app.py:62-72 | `{10, 5, 2}` gives "400". |
| `Handler.WidestRangeIs500` | app.py:84-92 | `{0, 9223372036854775807, 1}` gives "500". |

## Left out

- Flask, routing, `request.get_json` and `jsonify` (app.py:4, 8, 37, 44) are HTTP plumbing. A body that `get_json` cannot produce as an object is the `NotAnObject` case, carrying the exception text.
- The cross-origin configuration (app.py:5, 12) holds no logic.
- `fechageneracion`, the timestamp, depends on the wall clock and library formatting. It is not a field of `Response`.
- Randomness: the uniformity of `random.sample` is not stated. The model only states which draws are possible, through the `drawn` parameter.
- Python's `int(...)` on arbitrary JSON values (float truncation, booleans, whitespace, string syntax) is library behaviour. Each field value is abstracted to its outcome: an integer, ValueError/TypeError, or another exception with its text.
- The text of a 500 message is modelled as a fixed prefix plus the exception's text. For conversion errors and non-object bodies, that text is an arbitrary parameter. Which exceptions `int(...)` raises, and their wording, are not modelled.
- Resource exhaustion is not modelled. One case is the `MemoryError` that `random.sample` can raise when it allocates its result list for an enormous count.
- `MaxSize` is fixed to 64-bit CPython's `sys.maxsize`. On a 32-bit build the OverflowError starts at 2^31 - 1 values.
- The local development server start-up (app.py:95-96) is not modelled.
