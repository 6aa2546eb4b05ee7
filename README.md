# Join by name — a verified model

`agora_results/utils/join_by_name.py` reads several decoded tally results and
matches the answers of the last tally, by their text, to the answers of the
earlier tallies. For every question of the last tally it produces a dictionary
from the answer id (rendered with `str`) to a list of correction records
`{tally_id, question_id, answer_id, answer_value}`, one per scanned earlier
tally whose question at the same position has an answer with the same text.
Only the first two earlier tallies are ever scanned (see below).

The model has three modules:

- `Decimal` (`decimal.dfy`): `str` on integers, with its inverse, so that
  distinct ids are proved to give distinct dictionary keys.
- `JoinSpec` (`join_spec.dfy`): the data (answers, questions, tallies, the
  `answers_by_name` indexes, correction records, the outcome) and the matching
  rule as functions, with the lemmas that state what the join promises.
- `JoinByName` (`join_by_name.dfy`): the tool's body as imperative code. The
  wrapper dictionary `{data, answers_by_name}` is the class `TallyResult`,
  whose `answersByName` list is filled in place. The three nested loops of the
  join are split over three methods: `BuildCorrections` (over questions),
  `BuildQuestion` (over the answers of one question) and `ScanEarlier` (over
  the scanned earlier tallies). `CreateJoin` runs them. Each method is proved
  equal to the `JoinSpec` functions.

Four functions of `JoinSpec` define the source's lines without a contract of
their own. The lemmas in the table below are about them:

- `IndexOf` is the dictionary built at line 24 from a question's
  `(value, id)` pairs.
- `Matches` is the list `answ_corrections` built by the loop at lines 32-40
  for one answer text.
- `QuestionJoin` is the dictionary `q` filled at lines 30-41, one entry per
  answer, in answer order.
- `Join` is the whole of lines 28-42: the list `corrections`, or the
  `IndexError` raised at line 34.

Two quirks of the source are modelled as written:

- The scan over earlier tallies is `zip(range(len(results[-1])), results[:-1])`.
  `results[-1]` is the two-key wrapper dictionary, so at most the first two
  earlier tallies are scanned (`WrapperFields`, `ScanCount`).
- Later entries win. Two answers with the same text keep the id of the later
  one in `answers_by_name`. Two answers with the same id keep the list of the
  later one in the corrections dictionary.

When an earlier scanned tally has fewer questions than the last one, the
source raises `IndexError` at line 34. This happens only when the question
being joined has at least one answer. The model returns `Outcome.IndexError`
in exactly that case (`JoinSpec.JoinFails`). Its callers must pass at least
one tally, because `argparse` is configured with `nargs='+'`.

## Model

| member | source | states |
|---|---|---|
| `Decimal.IntToStringInjective` | agora_results/utils/join_by_name.py:41 | `str(id)` keys are injective: two ids render to the same key exactly when they are equal |
| `Decimal.ParseIntToString` | agora_results/utils/join_by_name.py:41 | reading the decimal rendering of an id back gives the id |
| `Decimal.NatToString` | agora_results/utils/join_by_name.py:41 | the rendering of a magnitude is a non-empty string of digits, one digit long exactly below 10 |
| `Decimal.IntToString` | agora_results/utils/join_by_name.py:41 | the rendering is non-empty and starts with '-' exactly for negative ids |
| `JoinSpec.ScanCount` | agora_results/utils/join_by_name.py:33 | the number of earlier tallies scanned is at most 2 and below the number of tallies, and equals one of the two |
| `JoinSpec.IndexTally` | agora_results/utils/join_by_name.py:23-25 | a tally's `answers_by_name` has one index per question, in order |
| `JoinSpec.IndexOfKeys` | agora_results/utils/join_by_name.py:24 | the keys of a question's index are exactly the texts of its answers |
| `JoinSpec.IndexOfLastWins` | agora_results/utils/join_by_name.py:24 | a text maps to the id of an answer with that text when no later answer has it |
| `JoinSpec.IndexOfEntry` | agora_results/utils/join_by_name.py:24 | every entry of an index is the id of the last answer with that text |
| `JoinSpec.MatchesMember` | agora_results/utils/join_by_name.py:33-40 | a record is in an answer's list exactly when it names a scanned tally whose index has the text, with the id found there, the question, and the text |
| `JoinSpec.MatchesRecords` | agora_results/utils/join_by_name.py:35-40 | every record of an answer's list carries the question, the answer's text, a scanned tally that has the text and the id that tally gives it |
| `JoinSpec.MatchesSorted` | agora_results/utils/join_by_name.py:33-35 | each list has strictly increasing tally ids, so at most one record per tally |
| `JoinSpec.QuestionJoinKeys` | agora_results/utils/join_by_name.py:30-41 | the keys of a question's corrections dictionary are exactly the rendered ids of its answers |
| `JoinSpec.QuestionJoinLastWins` | agora_results/utils/join_by_name.py:30-41 | the list under an answer's id is that answer's list when no later answer has the same id |
| `JoinSpec.QuestionJoinEntry` | agora_results/utils/join_by_name.py:30-41 | every list in the dictionary belongs to the last answer with the id it is filed under |
| `JoinSpec.JoinFails` | agora_results/utils/join_by_name.py:29-34 | the join fails with IndexError exactly when some question of the last tally has an answer and a scanned earlier tally has no question at that position |
| `JoinSpec.JoinShape` | agora_results/utils/join_by_name.py:28-42 | a successful join has exactly one dictionary per question of the last tally (none when it has no questions), each keyed by exactly the rendered ids of that question's answers |
| `JoinSpec.JoinMatch` | agora_results/utils/join_by_name.py:31-41 | for the last answer with a given id, its list has a record for earlier tally j exactly when j is scanned and j's question has the same text, and that record carries the id j's index gives the text |
| `JoinSpec.JoinRecordOrigin` | agora_results/utils/join_by_name.py:31-41 | every list is filed under the id of an answer of the same question of the last tally, the last answer with that id, and all its records carry that answer's text |
| `JoinSpec.JoinRecordFields` | agora_results/utils/join_by_name.py:33-40 | every record names its question, a tally id below both the number of earlier tallies and 2, a text that tally's question has, and the id found there; each list is strictly ordered by tally |
| `JoinSpec.SingleTally` | agora_results/utils/join_by_name.py:33-41 | with a single tally the join succeeds and every list is empty |
| `JoinByName.TallyResult.constructor` | agora_results/utils/join_by_name.py:16-19 | a loaded result holds the decoded tally and an empty `answers_by_name` |
| `JoinByName.TallyResult.AddIndexes` | agora_results/utils/join_by_name.py:23-25 | appends one index per question, in order, to the result's `answers_by_name` |
| `JoinByName.Load` | agora_results/utils/join_by_name.py:11-19 | one fresh, distinct wrapper per tally, in input order, each with empty `answers_by_name` |
| `JoinByName.BuildAnswersByName` | agora_results/utils/join_by_name.py:22-25 | every loaded result gets the indexes of its questions appended, and nothing else changes |
| `JoinByName.ScanEarlier` | agora_results/utils/join_by_name.py:32-40 | the inner scan succeeds exactly when every scanned earlier result has question i, and then returns the answer's correction list |
| `JoinByName.BuildQuestion` | agora_results/utils/join_by_name.py:30-41 | the loop over one question's answers succeeds exactly when the question has no answer or every scanned earlier result has that question, and then builds exactly that question's corrections dictionary |
| `JoinByName.BuildCorrections` | agora_results/utils/join_by_name.py:29-42 | the loop over the last result's questions succeeds exactly when no lookup is out of range, and then gives one dictionary per question, in order |
| `JoinByName.CreateJoin` | agora_results/utils/join_by_name.py:28-42 | the nested loops compute exactly the join of the loaded tallies, or IndexError where the source raises it |
| `JoinByName.JoinTallies` | agora_results/utils/join_by_name.py:11-42 | the whole body of the tool on decoded tallies computes exactly the join |

## Left out

- Command-line parsing (lines 8-10) is not modelled. The decoded tallies are the input, and `nargs='+'` becomes the requirement that there is at least one.
- File reading and JSON decoding (lines 14-17) are not modelled. A tally is its already decoded `counts` list, in which each question is its `answers` list of `(id, value)` pairs.
- JSON printing of the corrections (line 44) is not modelled. It is output formatting.
- The order of keys in the output dictionaries is not modelled. Python dictionaries keep insertion order, and a duplicate id keeps its first position. Dafny maps are unordered, so the model states the key set and the value under each key.
- Malformed decoded data, such as a missing `counts`, `answers`, `id` or `value` field or a non-integer id, is not modelled. The model's types rule it out.
