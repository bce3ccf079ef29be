/**
  The results table written at the end of a search: a header of eight column
  names, then one row per trial in the order the study lists its trials.
  Hyperparameters come from the trial's parameters and the two metrics from
  its user attributes; a key that is missing becomes an empty (None) cell.
  The table is returned as a value; the timestamped file name and the CSV
  encoding are not modelled.
*/
module ResultsTable {

  /** One CSV field as Python hands it to the writer. */
  datatype Cell = NoneCell | IntCell(i: int) | RealCell(x: real) | TextCell(s: string)

  datatype TrialState = Running | Complete | Pruned | Fail | Waiting

  /** The enum member's name, as `trial.state.name`. */
  function StateName(s: TrialState): string {
    match s
    case Running => "RUNNING"
    case Complete => "COMPLETE"
    case Pruned => "PRUNED"
    case Fail => "FAIL"
    case Waiting => "WAITING"
  }

  /** The parts of a finished trial the table reads. */
  datatype FrozenTrial = FrozenTrial(number: nat, params: map<string, Cell>, userAttrs: map<string, Cell>, state: TrialState)

  const Header: seq<string> := [
    "trial_number", "learning_rate", "batch_size", "dropout",
    "dense_layers", "best_val_loss", "best_val_f1", "state"
  ]

  /** `d.get(key, None)`. */
  function Get(d: map<string, Cell>, key: string): (c: Cell)
    ensures key !in d ==> c == NoneCell
    ensures key in d ==> c == d[key]
  {
    if key in d then d[key] else NoneCell
  }

  function HeaderRow(): seq<Cell> {
    [TextCell(Header[0]), TextCell(Header[1]), TextCell(Header[2]), TextCell(Header[3]),
     TextCell(Header[4]), TextCell(Header[5]), TextCell(Header[6]), TextCell(Header[7])]
  }

  /** The row written for one trial. */
  function Row(t: FrozenTrial): seq<Cell> {
    [ IntCell(t.number),
      Get(t.params, "learning_rate"),
      Get(t.params, "batch_size"),
      Get(t.params, "dropout"),
      Get(t.params, "dense_layers"),
      Get(t.userAttrs, "best_val_loss"),
      Get(t.userAttrs, "best_val_f1"),
      TextCell(StateName(t.state)) ]
  }

  /** Every row is as wide as the header, and each column holds what its header
      names: the trial number, the hyperparameter of that name (columns 1-4), the
      user attribute of that name (columns 5-6), or the state's name. */
  lemma RowMatchesHeader(t: FrozenTrial)
    ensures |Row(t)| == |Header| == |HeaderRow()| == 8
    ensures Row(t)[0] == IntCell(t.number)
    ensures forall k :: 1 <= k <= 4 ==> Row(t)[k] == Get(t.params, Header[k])
    ensures forall k :: 5 <= k <= 6 ==> Row(t)[k] == Get(t.userAttrs, Header[k])
    ensures Row(t)[7] == TextCell(StateName(t.state))
    ensures forall k :: 1 <= k <= 4 && Header[k] !in t.params ==> Row(t)[k] == NoneCell
    ensures forall k :: 5 <= k <= 6 && Header[k] !in t.userAttrs ==> Row(t)[k] == NoneCell
  {
    var r := Row(t);
    assert r[1] == Get(t.params, Header[1]) && r[2] == Get(t.params, Header[2]);
    assert r[3] == Get(t.params, Header[3]) && r[4] == Get(t.params, Header[4]);
    assert r[5] == Get(t.userAttrs, Header[5]) && r[6] == Get(t.userAttrs, Header[6]);
  }

  /** The rows written to the file: the header, then one row per trial. */
  method SaveAllTrialsTable(trials: seq<FrozenTrial>) returns (table: seq<seq<Cell>>)
    ensures |table| == |trials| + 1
    ensures table[0] == HeaderRow()
    ensures forall i :: 0 <= i < |trials| ==> table[i + 1] == Row(trials[i])
    ensures forall i :: 0 <= i < |table| ==> |table[i]| == |Header|
  {
    table := [HeaderRow()];
    for i := 0 to |trials|
      invariant |table| == i + 1
      invariant table[0] == HeaderRow()
      invariant forall j :: 0 <= j < i ==> table[j + 1] == Row(trials[j])
      invariant forall j :: 0 <= j < |table| ==> |table[j]| == |Header|
    {
      var trial := trials[i];
      table := table + [Row(trial)];
    }
  }
}
