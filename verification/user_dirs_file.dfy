/** `PlatformFoldersAddFromFile`: reads the lines of `user-dirs.dirs` into the folder table.
    Blank lines and lines starting with '#' are skipped; every other line is cut at its first
    '=' into a key and, dropping two characters after the '=' and the last character of the
    line, a value. For the format xdg-user-dirs writes, `KEY="value"`, that is the quoted
    value. Malformed lines are processed by the same unsigned arithmetic as in C++. */
module UserDirsFile {
  import opened Environ
  import opened CxxString

  /** The folder table: XDG_*_DIR names to paths. */
  type Table = map<string, string>

  /** The line xdg-user-dirs writes for `key` and `value`. */
  function Assignment(key: string, value: string): string {
    key + "=\"" + value + "\""
  }

  /** What one line does: nothing (None), assign a value to a key, or throw. */
  function ParseLine(line: string): (r: Result<Option<(string, string)>>)
    ensures r == Ok(None) <==> |line| == 0 || line[0] == '#'
    ensures r.Err? ==> r.error == OutOfRange
  {
    if |line| == 0 || line[0] == '#' then Ok(None)
    else
      var splitPos := Find(line, '=');
      var key := Substr(line, 0, splitPos).value;
      var value :- Substr(line, SizeT(splitPos + 2), SizeT(|line| - splitPos - 3));
      Ok(Some((key, value)))
  }

  /** The table after one line: `folders[key] = value` for an assignment. */
  function ApplyLine(folders: Table, line: string): (r: Result<Table>)
    ensures r.Err? <==> ParseLine(line).Err?
    ensures r.Ok? ==> folders.Keys <= r.value.Keys
  {
    match ParseLine(line)
    case Err(e) => Err(e)
    case Ok(None) => Ok(folders)
    case Ok(Some((key, value))) => Ok(folders[key := value])
  }

  /** The table after the lines in order; the first line that throws ends the reading. */
  function ApplyLines(folders: Table, lines: seq<string>): (r: Result<Table>)
    ensures r.Err? ==> r.error == OutOfRange
    decreases |lines|
  {
    if lines == [] then Ok(folders)
    else
      var next :- ApplyLine(folders, lines[0]);
      ApplyLines(next, lines[1..])
  }

  /** Only a line that throws can make the reading throw. */
  lemma {:induction false} ApplyLinesSucceeds(folders: Table, lines: seq<string>)
    requires forall i :: 0 <= i < |lines| ==> ParseLine(lines[i]).Ok?
    ensures ApplyLines(folders, lines).Ok?
    decreases |lines|
  {
    if lines != [] {
      var next := ApplyLine(folders, lines[0]).value;
      assert forall i :: 0 <= i < |lines| - 1 ==> lines[1..][i] == lines[i + 1];
      ApplyLinesSucceeds(next, lines[1..]);
    }
  }

  /** The line assigns to `key` (whether or not it is later overwritten). */
  predicate Assigns(line: string, key: string) {
    var p := ParseLine(line);
    p.Ok? && p.value.Some? && p.value.value.0 == key
  }

  /** A std::string is shorter than npos. */
  predicate FitsSizeT(s: string) {
    |s| < NPos
  }

  /** Blank and comment lines leave the table unchanged. */
  lemma SkippedLine(folders: Table, line: string)
    requires |line| == 0 || line[0] == '#'
    ensures ParseLine(line) == Ok(None)
    ensures ApplyLine(folders, line) == Ok(folders)
  {
  }

  /** Every line that is not skipped assigns: the key is the text before the first '=' (the
      whole line when there is none), and the only line that throws is one whose first '='
      is its last character. */
  lemma ParseLineShape(line: string)
    requires |line| > 0 && line[0] != '#' && FitsSizeT(line)
    ensures ParseLine(line).Err? <==> '=' in line && IndexOf(line, '=') == |line| - 1
    ensures ParseLine(line).Ok? ==>
              ParseLine(line).value.Some? &&
              var key := ParseLine(line).value.value.0;
              key <= line && '=' !in key && (|key| < |line| ==> line[|key|] == '=')
  {
    var splitPos := Find(line, '=');
    var key := Substr(line, 0, splitPos).value;
    if '=' in line {
      assert key == line[..splitPos];
      assert forall i :: 0 <= i < |key| ==> key[i] == line[i];
      assert SizeT(splitPos + 2) == splitPos + 2;
    } else {
      assert key == line;
      assert SizeT(splitPos + 2) == 1;
    }
  }

  /** A line with an '=' that does not throw: the key is the text before the first '=', and
      the value the text from two past it up to, not including, the last character of the
      line (empty when the '=' is second to last). */
  lemma ParseLineValue(line: string)
    requires |line| > 0 && line[0] != '#' && '=' in line && FitsSizeT(line)
    requires IndexOf(line, '=') < |line| - 1
    ensures var k := IndexOf(line, '=');
            ParseLine(line) == Ok(Some((line[..k], if k + 2 < |line| then line[k + 2..|line| - 1] else [])))
  {
    var k := IndexOf(line, '=');
    var splitPos := Find(line, '=');
    assert splitPos == k;
    assert Substr(line, 0, k) == Ok(line[..k]);
    assert SizeT(k + 2) == k + 2;
    ValueAfterEquals(line, k);
  }

  /** The `substr` that cuts the value after an '=' at `k` that is not the last character. */
  lemma ValueAfterEquals(line: string, k: nat)
    requires k + 2 <= |line| && FitsSizeT(line)
    ensures Substr(line, k + 2, SizeT(|line| - k - 3)) ==
              Ok(if k + 2 < |line| then line[k + 2..|line| - 1] else [])
  {
    if k + 2 < |line| {
      assert SizeT(|line| - k - 3) == |line| - k - 3;
    } else {
      SizeTWrapsNegative(|line| - k - 3);
    }
  }

  /** A well-formed line `KEY="value"` sets exactly that key to the unquoted value. Its key
      must hold no '=' and must not start with '#' (such a line is a comment). */
  lemma AssignmentLine(folders: Table, key: string, value: string)
    requires '=' !in key && (key == [] || key[0] != '#')
    requires FitsSizeT(Assignment(key, value))
    ensures ParseLine(Assignment(key, value)) == Ok(Some((key, value)))
    ensures ApplyLine(folders, Assignment(key, value)) == Ok(folders[key := value])
  {
    var line := Assignment(key, value);
    var k := |key|;
    assert line[k] == '=';
    assert line[..k] == key;
    assert forall i :: 0 <= i < k ==> line[i] == key[i];
    var splitPos := Find(line, '=');
    assert splitPos == k;
    assert line[0] != '#' by {
      if key == [] { assert line[0] == '='; } else { assert line[0] == key[0]; }
    }
    assert Substr(line, 0, splitPos) == Ok(key);
    assert SizeT(splitPos + 2) == k + 2;
    assert SizeT(|line| - splitPos - 3) == |value|;
    assert line[k + 2..k + 2 + |value|] == value;
  }

  /** A line with no '=' at all: npos + 2 wraps to 1, so the whole line is the key and the
      value is the line without its first and last characters. */
  lemma LineWithoutEquals(line: string)
    requires '=' !in line && |line| > 0 && line[0] != '#'
    requires FitsSizeT(line)
    ensures ParseLine(line) == Ok(Some((line, if |line| >= 2 then line[1..|line| - 1] else [])))
  {
    assert Find(line, '=') == NPos;
    assert Substr(line, 0, NPos) == Ok(line);
    assert SizeT(NPos + 2) == 1;
    if |line| >= 2 {
      assert SizeT(|line| - NPos - 3) == |line| - 2;
    } else {
      assert SizeT(|line| - NPos - 3) == NPos;
    }
  }

  /** A line whose only '=' is its last character: the value starts past the end and
      std::string::substr throws std::out_of_range. */
  lemma LineEndingInEquals(key: string)
    requires '=' !in key && (key == [] || key[0] != '#')
    requires FitsSizeT(key + "=")
    ensures ParseLine(key + "=") == Err(OutOfRange)
  {
    var line := key + "=";
    assert line[|key|] == '=';
    assert forall i :: 0 <= i < |key| ==> line[i] == key[i];
    var splitPos := Find(line, '=');
    assert splitPos == |key|;
    assert line[0] != '#' by {
      if key == [] { assert line[0] == '='; } else { assert line[0] == key[0]; }
    }
  }

  /** Reading `a` then `b` is reading `a + b`. */
  lemma {:induction false} ApplyLinesAppend(folders: Table, a: seq<string>, b: seq<string>)
    ensures ApplyLines(folders, a + b) ==
              match ApplyLines(folders, a)
              case Err(e) => Err(e)
              case Ok(next) => ApplyLines(next, b)
    decreases |a|
  {
    if a == [] {
      assert a + b == b;
    } else {
      assert (a + b)[0] == a[0];
      assert (a + b)[1..] == a[1..] + b;
      match ApplyLine(folders, a[0]) {
        case Err(e) =>
        case Ok(next) => ApplyLinesAppend(next, a[1..], b);
      }
    }
  }

  /** Reading never removes a key. */
  lemma {:induction false} ApplyLinesKeepsKeys(folders: Table, lines: seq<string>)
    ensures ApplyLines(folders, lines).Ok? ==> folders.Keys <= ApplyLines(folders, lines).value.Keys
    decreases |lines|
  {
    if lines != [] {
      match ApplyLine(folders, lines[0]) {
        case Err(e) =>
        case Ok(next) => ApplyLinesKeepsKeys(next, lines[1..]);
      }
    }
  }

  /** A key no line assigns keeps its presence and its value. */
  lemma {:induction false} ApplyLinesUntouched(folders: Table, lines: seq<string>, key: string)
    requires forall i :: 0 <= i < |lines| ==> !Assigns(lines[i], key)
    ensures ApplyLines(folders, lines).Ok? ==>
              (key in ApplyLines(folders, lines).value <==> key in folders) &&
              (key in folders ==> ApplyLines(folders, lines).value[key] == folders[key])
    decreases |lines|
  {
    if lines != [] {
      assert !Assigns(lines[0], key);
      match ApplyLine(folders, lines[0]) {
        case Err(e) =>
        case Ok(next) =>
          assert key in next <==> key in folders;
          assert key in folders ==> next[key] == folders[key];
          assert forall i :: 0 <= i < |lines[1..]| ==> lines[1..][i] == lines[i + 1];
          ApplyLinesUntouched(next, lines[1..], key);
      }
    }
  }

  /** The last assignment to a key wins: whatever came before it, and whatever follows that
      does not assign the key again. */
  lemma LastAssignmentWins(folders: Table, before: seq<string>, key: string, value: string,
                           after: seq<string>)
    requires '=' !in key && (key == [] || key[0] != '#')
    requires FitsSizeT(Assignment(key, value))
    requires forall i :: 0 <= i < |after| ==> !Assigns(after[i], key)
    requires ApplyLines(folders, before + [Assignment(key, value)] + after).Ok?
    ensures key in ApplyLines(folders, before + [Assignment(key, value)] + after).value
    ensures ApplyLines(folders, before + [Assignment(key, value)] + after).value[key] == value
  {
    var line := Assignment(key, value);
    ApplyLinesAppend(folders, before + [line], after);
    ApplyLinesAppend(folders, before, [line]);
    match ApplyLines(folders, before) {
      case Err(e) =>
      case Ok(m) =>
        AssignmentLine(m, key, value);
        assert ApplyLines(m, [line]) == Ok(m[key := value]) by {
          assert [line][1..] == [];
        }
        ApplyLinesUntouched(m[key := value], after, key);
    }
  }

  /** Reading from line `i` is applying line `i`, then reading from line `i + 1`. */
  lemma ApplyLinesAt(folders: Table, lines: seq<string>, i: nat)
    requires i < |lines|
    ensures ApplyLine(folders, lines[i]).Err? ==>
              ApplyLines(folders, lines[i..]) == Err(ApplyLine(folders, lines[i]).error)
    ensures ApplyLine(folders, lines[i]).Ok? ==>
              ApplyLines(folders, lines[i..]) == ApplyLines(ApplyLine(folders, lines[i]).value, lines[i + 1..])
  {
    assert lines[i..][0] == lines[i] && lines[i..][1..] == lines[i + 1..];
  }

  /** The body of the `getline` loop: skip a blank or comment line, otherwise cut the line
      at its first '=' and assign; a throw from `substr` ends the reading. */
  method AddLine(folders: Table, line: string) returns (r: Result<Table>)
    ensures r == ApplyLine(folders, line)
  {
    if |line| == 0 || line[0] == '#' {
      return Ok(folders);
    }
    var splitPos := Find(line, '=');
    var key := Substr(line, 0, splitPos).value;
    var value :- Substr(line, SizeT(splitPos + 2), SizeT(|line| - splitPos - 3));
    return Ok(folders[key := value]);
  }

  /** `PlatformFoldersAddFromFile`: the `getline` loop over the file's lines, assigning into
      the caller's table, which is passed in and returned. A throw from `substr` ends it. */
  method PlatformFoldersAddFromFile(lines: seq<string>, folders: Table) returns (r: Result<Table>)
    ensures r == ApplyLines(folders, lines)
  {
    var current := folders;
    var i := 0;
    while i < |lines|
      invariant 0 <= i <= |lines|
      invariant ApplyLines(current, lines[i..]) == ApplyLines(folders, lines)
    {
      ApplyLinesAt(current, lines, i);
      current :- AddLine(current, lines[i]);
      i := i + 1;
    }
    assert lines[i..] == [];
    return Ok(current);
  }
}
