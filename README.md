# Outboard GOR-control callback

This project models the outboard decision callback `ob_compute` of the
GOR-control experiment (`NewExperiments/exp42/ob_cmg_test.py`). The simulator
calls it at every communication time with a snapshot of its state. The
callback fills an output record with command lines, written in the host's
keyword syntax, and with messages for the operator log. It applies two rules
to the well PRODUCER1:

- **Time guard.** At time 0 the record is returned empty.
- **GOR rule.** The gas-oil ratio is STG/STO, and 0 when STO is not
  positive. If it exceeds 100, the callback writes `ALTER 'PRODUCER1'`. Next
  it writes a line holding the new BHP target, `min(BHP * 1.5, 2500)`. Then
  it logs one message.
- **Low-rate rule.** If STO is below 75, the callback writes
  `SHUTIN 'PRODUCER1'` and logs one message. This does not depend on the GOR
  rule.

Files:

- `sim_data.dfy` (module `SimData`): the snapshot. It holds the current time
  and a map from well names to records of BHP, STO and STG.
- `outboard.dfy` (module `Outboard`): the output record `ObData`. It is a
  class with two sequence fields, `lines` and `messages`. Its methods
  `InfoToSim` and `Message` each append one entry in place. Command lines
  are the datatype `Alter(well) | Value(target) | ShutIn(well)`. Messages are
  the events `ChokingBack(time) | ShuttingIn(time)`.
- `keywords.dfy` (module `HostKeywords`): how the host reads those lines.
  It covers only the two line shapes this callback writes, not the host's
  whole keyword language.
  An ALTER line followed by its value line is one directive. A SHUTIN line
  is one directive. `Render` writes directives as lines and `Parse` reads
  lines back as directives, and rejects a value line that has no ALTER line
  before it. The two are proved inverse to each other in both directions.
- `ob_compute.dfy` (module `ObCompute`): the rules and the method `Compute`.
  `Compute` builds the record step by step, like the source does. Its
  contract ties the final record to the specification functions `Commands`
  and `Events`. Those are defined from `Decisions`, the list of rules that
  fire: the lines are the rules rendered as host lines, and the messages are
  one announcement per rule. The lemmas then state what the callback promises
  about those functions.

Two points of the callback's behaviour worth stating directly:

- It tests `STO > 0.0` before it divides, so a negative oil rate also gives
  GOR 0, not only a zero oil rate.
- It never calls `set_status`, so the record keeps `OB_Data`'s default
  status.

## Model

| member | source | states |
|---|---|---|
| `Outboard.ObData.constructor` | NewExperiments/exp42/ob_cmg_test.py:36 | a new record has no command lines and no messages |
| `Outboard.ObData.InfoToSim` | NewExperiments/exp42/ob_cmg_test.py:22-26 | each call adds exactly one line after the existing ones and leaves the messages unchanged |
| `Outboard.ObData.Message` | NewExperiments/exp42/ob_cmg_test.py:27 | each call adds exactly one message after the existing ones and leaves the lines unchanged |
| `ObCompute.HasProducer` | NewExperiments/exp42/ob_cmg_test.py:44-47 | the precondition of `Compute`: PRODUCER1 must be in the well map at every non-zero time, where the well is looked up; time 0 needs nothing |
| `ObCompute.Gor` | NewExperiments/exp42/ob_cmg_test.py:55-58 | when STO > 0 the ratio times STO gives back STG; otherwise the ratio is 0, so no division happens |
| `ObCompute.NewBhp` | NewExperiments/exp42/ob_cmg_test.py:61 | the target is at most 2500 and at most BHP*1.5, and equals one of the two, so it is their minimum |
| `ObCompute.ChokeFires` | NewExperiments/exp42/ob_cmg_test.py:55-60 | the GOR rule fires if and only if STO > 0 and STG > 100*STO |
| `ObCompute.ShutInFires` | NewExperiments/exp42/ob_cmg_test.py:55-66 | a well with STO <= 0 is always shut in and never choked back |
| `ObCompute.Commands` | NewExperiments/exp42/ob_cmg_test.py:39-68 | the fired rules rendered as host lines: no lines at time 0, and never more than three lines |
| `ObCompute.Events` | NewExperiments/exp42/ob_cmg_test.py:39-68 | one announcement per fired rule, in firing order: no messages at time 0, at most two, each carrying the current time |
| `ObCompute.Decisions` | NewExperiments/exp42/ob_cmg_test.py:60-68 | the fired rules in test order: none at time 0, at most two |
| `ObCompute.Announce` | NewExperiments/exp42/ob_cmg_test.py:64-68 | the message for a rule carries the current time and is the choke message exactly for a new-target directive |
| `ObCompute.Compute` | NewExperiments/exp42/ob_cmg_test.py:10-72 | returns a fresh record whose lines are `Commands` and whose messages are `Events` for the snapshot; needs PRODUCER1 at non-zero times |
| `ObCompute.TimeZeroIsNoOp` | NewExperiments/exp42/ob_cmg_test.py:39-41 | at time 0 the record is empty, and the well is not looked up |
| `ObCompute.ChokeEmitsCappedTarget` | NewExperiments/exp42/ob_cmg_test.py:60-63 | when GOR > 100 the lines start with ALTER 'PRODUCER1' and then the value min(BHP*1.5, 2500), which is at most 2500 and at most BHP*1.5 |
| `ObCompute.NoChokeNoAlter` | NewExperiments/exp42/ob_cmg_test.py:60-63 | when GOR <= 100 there is no ALTER line and no value line |
| `ObCompute.ShutInIffLowRate` | NewExperiments/exp42/ob_cmg_test.py:66-67 | SHUTIN 'PRODUCER1' is written if and only if STO < 75, and then it is the last line |
| `ObCompute.NoOilOnlyShutsIn` | NewExperiments/exp42/ob_cmg_test.py:55-68 | STO <= 0 gives exactly the lines [SHUTIN 'PRODUCER1'] and the one shut-in message |
| `ObCompute.LineCountAndOrder` | NewExperiments/exp42/ob_cmg_test.py:60-68 | the line count is 2 per choke plus 1 per shut-in; when both rules fire, the ALTER pair comes before SHUTIN |
| `ObCompute.ShutInIndependentOfGor` | NewExperiments/exp42/ob_cmg_test.py:66-68 | two snapshots with the same oil rate agree on the shut-in line and message, whatever their BHP and gas rate |
| `ObCompute.RuleEvents` | NewExperiments/exp42/ob_cmg_test.py:60-68 | the messages are the choke message, when GOR > 100, followed by the shut-in message, when STO < 75 |
| `ObCompute.RuleLines` | NewExperiments/exp42/ob_cmg_test.py:60-68 | the lines are the GOR rule's ALTER pair, when GOR > 100, followed by the low-rate rule's SHUTIN line, when STO < 75; none at time 0 |
| `ObCompute.CommandsReadBack` | NewExperiments/exp42/ob_cmg_test.py:22-26 | the command lines read back as exactly the fired rules, so every ALTER line has its value line next to it |
| `ObCompute.ScenarioChokeToCap` | NewExperiments/exp42/ob_cmg_test.py:51-68 | time 10, BHP 2000, STO 80, STG 9000 gives [ALTER, 2500] and only the choke message |
| `ObCompute.ScenarioLowRateShutIn` | NewExperiments/exp42/ob_cmg_test.py:51-68 | time 5, BHP 1000, STO 50, STG 0 gives [SHUTIN] and only the shut-in message |
| `HostKeywords.LinesOf` | NewExperiments/exp42/ob_cmg_test.py:62-67 | a directive is written as one or two lines |
| `HostKeywords.Render` | NewExperiments/exp42/ob_cmg_test.py:62-67 | n directives take between n and 2n lines |
| `HostKeywords.RenderAppend` | NewExperiments/exp42/ob_cmg_test.py:62-67 | writing two directive sequences one after the other gives the concatenation of their lines |
| `HostKeywords.Parse` | NewExperiments/exp42/ob_cmg_test.py:22-26 | a stream that starts with a value line is rejected; an accepted stream of k directives has between k and 2k lines |
| `HostKeywords.ParseRender` | NewExperiments/exp42/ob_cmg_test.py:22-26 | written directives read back as the same directives |
| `HostKeywords.RenderParse` | NewExperiments/exp42/ob_cmg_test.py:22-26 | any line stream that reads back as directives is exactly those directives written out |

## Left out

- The driver `OB_CMG(ob_compute).run()` and the checkpoint loop (lines 74-76). They belong to the `ob_cmg` module, which is not part of this model, and they are process and I/O plumbing.
- Logger creation (line 8). This is infrastructure.
- The text of the value line (`"\t" + str(new_BHP)`) and of the messages. That text depends on Python's float formatting. The value is modelled as a real, and the messages as events that carry the time. This means the model does not show that `min` returns the integer 2500, which prints without a decimal part, when the cap applies.
- IEEE floating point. GOR and `BHP * 1.5` are exact reals, so there is no rounding, no NaN and no infinity.
- `set_status` and `set_WCURRCN`. The doc-comment describes them, but the callback never calls them and their code is in the unseen `ob_cmg`/`ob_util` modules. The record therefore has no status field and no well-setting field.
- The lookup failure when PRODUCER1 is missing at a non-zero time. The source raises an unhandled KeyError there. The model makes PRODUCER1's presence a precondition (`HasProducer`).
- Outboard.ObData.Message: the doc-comment says only that `message` sets message(s). The model assumes that each call appends one message after the earlier ones, which is how the callback uses it at lines 64 and 68. `ObCompute.Events` rests on this reading.
- Well fields other than BHP, STO and STG. The callback does not read them.
