# Homework-status bot: validation, formatting and one polling pass

The bot polls a homework-review API for status changes and relays them to a
Telegram chat. This project models its decision logic in Dafny:

- `Homework.CheckTokens`: the start-up check that the API token, the bot token
  and the chat id are all set and non-empty.
- `Homework.CheckResponse`: the shape check of an API answer (a dictionary with
  a `homeworks` list and a `current_date`). Each failed check is a distinct
  error, `TypeError` or `KeyError`, reported in a fixed order.
- `Homework.ParseStatus`: the mapping of one homework record to its
  notification text through the fixed three-entry verdict table. There is no
  fallback message.
- `MainLoop.Cycle` / `MainLoop.RunCycle`: one pass of the `while True` loop in
  `main`. The pass starts from the `from_date` cursor and the result of the
  fetch. It yields the notifications sent, in list order, the cursor after the
  pass, and the exception the pass ended with, if any.

Python values decoded from the API's JSON are `Json.Value`, and module `PyStr`
renders them as Python's `str()` does. Python exceptions
are `Err` values of `Homework.Error`, which keeps `TypeError`, `KeyError` and a
bare `Exception` apart. `check_response` and `parse_status` are pure, so they
are Dafny functions. Calling either twice on the same input gives the same
result by construction. The loop in `main` is a `for` loop in the method
`SendAll`, proved equal to the function `Relay` applied with `ParseStatus`.

In these places the model follows what the code does:

- A homework record that is not a dictionary raises `TypeError` (it cannot be
  subscripted), not `KeyError`.
- A `status` that is a list or dictionary raises `TypeError`, because it cannot
  be looked up in the verdict dictionary. Any other status outside the table
  raises `KeyError`.
- `current_date` is not type-checked. The cursor after a successful pass is
  whatever value the answer holds there, so the cursor is a `Json.Value`.
- A failed `send_message` ends the pass at once. Notifications already sent
  stay sent, and the cursor does not move.

## Model

| member | source | states |
|---|---|---|
| `Homework.All` | homework.py:36 | `all()` over the secrets is true iff every one of them is truthy, meaning set and non-empty |
| `Homework.CheckTokens` | homework.py:29-36 | true iff each of the three secrets is present and non-empty; false as soon as any one is missing or empty |
| `Homework.CheckResponse` | homework.py:65-77 | a non-dictionary answer fails with `TypeError` before any key is examined. `KeyError` occurs iff the answer is a dictionary missing `homeworks` or `current_date`. `TypeError` occurs iff the answer is not a dictionary, or has both keys but a non-list `homeworks`, so a missing key outranks a wrong type. A dictionary with both keys whose `homeworks` is not a list fails with exactly `TypeError("Неверный тип 'homeworks'")`. On success it returns exactly the two stored values, unmodified |
| `Homework.ParseStatus` | homework.py:80-93 | a missing `homework_name` or `status` gives `KeyError`. A message is returned iff the status is one of `approved`, `reviewing`, `rejected`, and then it is the template with the name and that status's verdict from the table (homework.py:22-26). Every other status is an error: `TypeError` for an unhashable one, `KeyError` otherwise. A non-dictionary record gives `TypeError` |
| `PyStr.Show` | homework.py:90 | the text the f-string inserts for the homework name: a string as it is, `None`, `True` and `False` as Python writes them, and an integer as a canonical decimal numeral (no leading zero) that starts with `-` exactly when the integer is negative and reads back as that integer |
| `PyStr.Decimal` | homework.py:90 | Python's `str()` of an integer is a canonical numeral (an optional `-`, then digits with no leading zero), starting with `-` exactly for negative integers, that reads back as the integer |
| `PyStr.DigitsRoundTrip` | homework.py:90 | reading back the decimal digits written for a natural number gives that number |
| `Homework.DecodeNotice` | homework.py:90 | whatever it decodes is exactly the notification for the decoded name and a status of the table |
| `Homework.NoticeRoundTrip` | homework.py:88-90 | decoding the notification for any name and table status gives back that name and status, so the three verdicts cannot be confused |
| `Homework.NoticeInjective` | homework.py:22-26 | two notifications are equal only when the rendered homework names (the names after `str()`) and the statuses are equal |
| `MainLoop.Relay` | homework.py:113-118 | the loop over the records, formatting each with the given formatter (`parse_status` in `main`), sends one message per record, in list order, each that record's formatted text. It completes iff it reaches the end of the list. Otherwise it stops at the first record that cannot be formatted, with that record's error, or at the first failed send, with the send exception |
| `MainLoop.RelayCompletes` | homework.py:113-118 | the loop over the records runs to the end of the list exactly when every remaining record is formatted and delivered |
| `MainLoop.SendAll` | homework.py:113-118 | the `for` loop computes exactly what `Relay` specifies |
| `MainLoop.Cycle` | homework.py:108-125 | a failed fetch or a malformed answer sends nothing and keeps the cursor. Otherwise the messages sent are the delivered notices of a prefix of the list, in order, and the pass succeeds iff every record is formatted and delivered. A failed pass stops at the first record that cannot be formatted, ending with that record's error, or at the first failed send, ending with the send exception; exactly the records before it were delivered. The cursor becomes `current_date` only on success and keeps its previous value on any failure |
| `MainLoop.RunCycle` | homework.py:109-125 | the loop body, with its early exits on each exception, produces exactly the outcome `Cycle` specifies |
| `MainLoop.OneApprovedHomework` | homework.py:110-119 | an answer with one approved `hw1` sends that one notification and moves the cursor from 1700000000 to 1700000600 |
| `MainLoop.NoHomeworks` | homework.py:113-119 | an answer with an empty list sends nothing and still moves the cursor |

## Left out

- `get_api_answer` (homework.py:50-62) is an HTTP request. Its result, an answer or the exception it raised, is an input to `Cycle`.
- `send_message` (homework.py:39-47) calls the Telegram library. Whether the k-th call of a pass succeeds is the input `delivers(k)`. A failed delivery is a `telegram.error.TelegramError`, which `send_message` re-raises as `Exception('Не удалось отправить сообщение в Телеграмм')`. Other exceptions the library might raise, which escape with their own class and message, are not modelled.
- Logging, `load_dotenv` and `os.getenv`, the `sys.exit` after a failed token check, `time.time()` for the first cursor, and `time.sleep(RETRY_PERIOD)` are process I/O and wall-clock behaviour.
- The endless `while True` and the re-raise at homework.py:125 that ends the process are left out. Only a single pass is modelled.
- The best-effort error notification at homework.py:122-124 is left out. It is a further Telegram call whose own failure depends on the library.
- JSON floating-point numbers are not among the modelled values.
- `PyStr.Show` renders a list- or dictionary-valued `homework_name` as a placeholder rather than as Python's `repr` of the container. Strings, integers, `None` and booleans are rendered as Python's `str()` renders them.
- The messages of the `TypeError`s that Python itself raises (a non-subscriptable record, an unhashable status) are stand-ins. Their exception class is exact.
