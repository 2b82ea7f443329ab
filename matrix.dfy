/** `breadboard/matrix.py`: a button matrix scanned column by column.

    The column outputs are an array of levels. Which row reads high while a
    column is driven is an input `pressed(column, row)`. */
module Matrix {
  import opened Wrappers
  import opened Numeric
  import opened Base
  import opened EventActions

  /** The state naming the button at (`column`, `row`): "<column>_<row>". */
  function Label(column: nat, row: nat): string
  {
    NatToString(column) + "_" + NatToString(row)
  }

  /** The state when no button is pressed. */
  const NoButton: string := "None"

  /** The first row at or after `row` that reads high while `column` is driven. */
  function FirstRow(column: nat, row: nat, rows: nat, pressed: (nat, nat) -> bool): (r: Option<nat>)
    ensures r.Some? ==> row <= r.value < rows && pressed(column, r.value)
    ensures r.Some? ==> forall k: nat :: row <= k < r.value ==> !pressed(column, k)
    ensures r.None? ==> forall k: nat :: row <= k < rows ==> !pressed(column, k)
    decreases rows - row
  {
    if row >= rows then None
    else if pressed(column, row) then Some(row)
    else FirstRow(column, row + 1, rows, pressed)
  }

  /** The first pressed button at or after `column`, columns in order and rows
      in order within each column. */
  function Scan(column: nat, columns: nat, rows: nat, pressed: (nat, nat) -> bool): (r: Option<(nat, nat)>)
    ensures r.Some? ==> column <= r.value.0 < columns && r.value.1 < rows && pressed(r.value.0, r.value.1)
    ensures r.Some? ==> forall c: nat, k: nat :: column <= c < r.value.0 && k < rows ==> !pressed(c, k)
    ensures r.Some? ==> forall k: nat :: k < r.value.1 ==> !pressed(r.value.0, k)
    ensures r.None? ==> forall c: nat, k: nat :: column <= c < columns && k < rows ==> !pressed(c, k)
    decreases columns - column
  {
    if column >= columns then None
    else
      match FirstRow(column, 0, rows, pressed)
      case Some(row) => Some((column, row))
      case None => Scan(column + 1, columns, rows, pressed)
  }

  /** The state a full scan reports. */
  function ScanState(columns: nat, rows: nat, pressed: (nat, nat) -> bool): string
  {
    match Scan(0, columns, rows, pressed)
    case Some((c, r)) => Label(c, r)
    case None => NoButton
  }

  /** How many columns a scan drives before it stops. */
  function ColumnsDriven(columns: nat, rows: nat, pressed: (nat, nat) -> bool): (n: nat)
    ensures n <= columns
  {
    match Scan(0, columns, rows, pressed)
    case Some((c, _)) => c + 1
    case None => columns
  }

  /** The column writes of a scan that drives `n` columns: each one on, then off. */
  function Pulses(n: nat): (r: seq<(nat, bool)>)
    ensures |r| == 2 * n
    ensures forall i :: 0 <= i < n ==> r[2 * i] == (i, true) && r[2 * i + 1] == (i, false)
  {
    if n == 0 then [] else Pulses(n - 1) + [(n - 1, true), (n - 1, false)]
  }

  /** The scan after column `c`, when the columns before it found nothing:
      a high row in `c` ends it there, otherwise it goes on to `c + 1`. */
  lemma ScanAt(c: nat, columns: nat, rows: nat, pressed: (nat, nat) -> bool)
    requires c < columns && Scan(0, columns, rows, pressed) == Scan(c, columns, rows, pressed)
    ensures var row := FirstRow(c, 0, rows, pressed);
            (row.Some? ==> Scan(0, columns, rows, pressed) == Some((c, row.value)) &&
                           ColumnsDriven(columns, rows, pressed) == c + 1) &&
            (row.None? ==> Scan(0, columns, rows, pressed) == Scan(c + 1, columns, rows, pressed))
  {
  }

  /** A scan that got past the last column found nothing and drove them all. */
  lemma ScanDone(columns: nat, rows: nat, pressed: (nat, nat) -> bool)
    requires Scan(0, columns, rows, pressed) == Scan(columns, columns, rows, pressed)
    ensures Scan(0, columns, rows, pressed) == None && ColumnsDriven(columns, rows, pressed) == columns
  {
  }

  /** Column levels after the first `n` columns were driven and released. */
  function Released(levels: seq<bool>, n: nat): (r: seq<bool>)
    ensures |r| == |levels|
    ensures forall k :: 0 <= k < |r| ==> r[k] == if k < n then false else levels[k]
  {
    seq(|levels|, k requires 0 <= k < |levels| => if k < n then false else levels[k])
  }

  /** Releasing column `n` after the first `n` extends the released prefix. */
  lemma ReleasedNext(levels: seq<bool>, n: nat)
    requires n < |levels|
    ensures Released(levels, n)[n := false] == Released(levels, n + 1)
  {
  }

  /** The rule handed to `process_events`: the state becomes what the scan
      reports (assigning an equal value changes nothing). */
  function MatrixRule(columns: nat, rows: nat, pressed: (nat, nat) -> bool): Rule
  {
    (prior: Option<string>) => Ok(Some(ScanState(columns, rows, pressed)))
  }

  /** Different buttons have different state names. */
  lemma LabelInjective(c1: nat, r1: nat, c2: nat, r2: nat)
    requires Label(c1, r1) == Label(c2, r2)
    ensures c1 == c2 && r1 == r2
  {
    var s1, s2 := NatToString(c1), NatToString(c2);
    var l := Label(c1, r1);
    LabelShape(c1, r1);
    LabelShape(c2, r2);
    assert |s1| == |s2|;
    assert s1 == l[..|s1|] == s2;
    assert NatToString(r1) == l[|s1| + 1..] == NatToString(r2);
    DigitsValueOfNatToString(c1);
    DigitsValueOfNatToString(c2);
    DigitsValueOfNatToString(r1);
    DigitsValueOfNatToString(r2);
  }

  /** A state name is the column's digits, then '_'. */
  lemma LabelShape(c: nat, r: nat)
    ensures |NatToString(c)| < |Label(c, r)| && Label(c, r)[|NatToString(c)|] == '_'
    ensures forall i :: 0 <= i < |NatToString(c)| ==> IsDigit(Label(c, r)[i])
  {
  }

  /** No button's state name is "None". */
  lemma LabelIsNotNoButton(c: nat, r: nat)
    ensures Label(c, r) != NoButton
  {
    var l := Label(c, r);
    var s := NatToString(c);
    assert l[|s|] == '_';
  }

  /** `Matrix`. */
  class Matrix {
    const device: StatefulDevice
    /** The column output levels. */
    const columns: array<bool>
    /** The number of row inputs. */
    const rows: nat

    /** The state starts as "None"; the column outputs are taken to start low. */
    constructor (name: string, columnCount: nat, rows: nat)
      ensures device.name == name && device.declared == None && device.current == Some(NoButton)
      ensures columns.Length == columnCount && this.rows == rows
      ensures forall k :: 0 <= k < columns.Length ==> !columns[k]
      ensures fresh(device) && fresh(columns)
    {
      var d := new StatefulDevice(name, None);
      d.current := Some(NoButton);
      device := d;
      columns := new bool[columnCount](_ => false);
      this.rows := rows;
    }

    /** The rows of column `c` read in order while it is driven: the first
        high one, if any. */
    method ScanColumn(c: nat, pressed: (nat, nat) -> bool) returns (row: Option<nat>)
      ensures row == FirstRow(c, 0, rows, pressed)
    {
      var r := 0;
      while r < rows
        invariant 0 <= r <= rows
        invariant FirstRow(c, 0, rows, pressed) == FirstRow(c, r, rows, pressed)
      {
        if pressed(c, r) {
          return Some(r);
        }
        r := r + 1;
      }
      row := None;
    }

    /** The scan itself: drive each column in turn and read its rows, stopping
        at the first high row; every column driven is released before moving
        on. Returns the button found and the column writes. */
    method Drive(pressed: (nat, nat) -> bool) returns (found: Option<(nat, nat)>, writes: seq<(nat, bool)>)
      modifies columns
      ensures found == Scan(0, columns.Length, rows, pressed)
      ensures writes == Pulses(ColumnsDriven(columns.Length, rows, pressed))
      ensures columns[..] == Released(old(columns[..]), ColumnsDriven(columns.Length, rows, pressed))
    {
      found := None;
      writes := [];
      var c: nat := 0;
      while c < columns.Length
        invariant c <= columns.Length
        invariant Scan(0, columns.Length, rows, pressed) == Scan(c, columns.Length, rows, pressed)
        invariant writes == Pulses(c)
        invariant columns[..] == Released(old(columns[..]), c)
      {
        ScanAt(c, columns.Length, rows, pressed);
        var row := Probe(c, pressed);
        ReleasedNext(old(columns[..]), c);
        var pulse: seq<(nat, bool)> := [(c, true), (c, false)];
        writes := writes + pulse;
        if row.Some? {
          found := Some((c, row.value));
          return;
        }
        c := c + 1;
      }
      ScanDone(columns.Length, rows, pressed);
    }

    /** Column `c` driven high while its rows are read, then released. */
    method Probe(c: nat, pressed: (nat, nat) -> bool) returns (row: Option<nat>)
      requires c < columns.Length
      modifies columns
      ensures row == FirstRow(c, 0, rows, pressed)
      ensures columns[..] == old(columns[..])[c := false]
    {
      columns[c] := true;
      row := ScanColumn(c, pressed);
      columns[c] := false;
    }

    /** `manage_state`: the scan, then the state becomes what it found.
        Returns the column writes and whether the state changed, which is when
        the debounce sleep happens. */
    method ManageState(pressed: (nat, nat) -> bool) returns (changed: bool, writes: seq<(nat, bool)>)
      modifies device, columns
      ensures device.current == Some(ScanState(columns.Length, rows, pressed))
      ensures changed <==> old(device.current) != Some(ScanState(columns.Length, rows, pressed))
      ensures writes == Pulses(ColumnsDriven(columns.Length, rows, pressed))
      ensures columns[..] == Released(old(columns[..]), ColumnsDriven(columns.Length, rows, pressed))
    {
      var found;
      found, writes := Drive(pressed);
      var state := if found.Some? then Label(found.value.0, found.value.1) else NoButton;
      changed := Some(state) != device.current;
      if changed {
        device.current := Some(state);
      }
    }

    /** One `process_events` call with the buttons reading `pressed`. */
    method ProcessEvents(events: Events<Action>, pressed: (nat, nat) -> bool, fails: Action -> Option<Error>)
      returns (raised: Option<Error>, trace: seq<Action>)
      modifies device
      ensures var step := ProcessStep(events, device.name, Some(MatrixRule(columns.Length, rows, pressed)), old(device.current), fails);
              device.current == step.0 && raised == step.1 && trace == step.2
    {
      raised, trace := device.ProcessEvents(events, Some(MatrixRule(columns.Length, rows, pressed)), fails);
    }
  }
}
