/** The history chart: which fields of the records become plotted lines,
    which field is the x axis, and the colour of each line. Only the keys
    of the first record are looked at. */
module Chart {
  import opened Values

  /** A chart cell: the records hold numbers or strings. */
  datatype Cell = NumCell(n: real) | StrCell(s: string)

  /** One history record, its fields in `Object.keys` order. */
  type Record = seq<(string, Cell)>

  predicate DistinctKeys(r: Record)
  {
    forall i, j :: 0 <= i < j < |r| ==> r[i].0 != r[j].0
  }

  predicate NoDuplicates(s: seq<string>)
  {
    forall i, j :: 0 <= i < j < |s| ==> s[i] != s[j]
  }

  /** `Object.keys(data[0] || {})`: the keys of the first record in order,
      none for empty data. */
  function FirstKeys(data: seq<Record>): seq<string>
  {
    if data == [] then [] else seq(|data[0]|, i requires 0 <= i < |data[0]| => data[0][i].0)
  }

  /** `toLowerCase` on one character. Only A to Z are mapped. */
  function LowerChar(c: char): char
  {
    if 'A' <= c <= 'Z' then (c as int + 32) as char else c
  }

  /** `toLowerCase`, character by character. */
  function Lower(s: string): string
  {
    seq(|s|, i requires 0 <= i < |s| => LowerChar(s[i]))
  }

  /** The keys that name a time or step field, compared in lower case. The
      excluded-keys list and the x-axis search use the same five names. */
  const TimeLikeNames: set<string> := {"time", "t", "step", "step_count", "simulation_time"}

  predicate IsTimeLike(k: string)
  {
    Lower(k) in TimeLikeNames
  }

  /** `keys.filter(key => !keysToExclude.includes(key.toLowerCase()))` */
  function DropTimeLike(ks: seq<string>): seq<string>
  {
    if ks == [] then []
    else (if IsTimeLike(ks[0]) then [] else [ks[0]]) + DropTimeLike(ks[1..])
  }

  /** The plotted series, in key order. */
  function Lines(data: seq<Record>): seq<string>
  {
    DropTimeLike(FirstKeys(data))
  }

  /** `keys.find(key => ...includes(key.toLowerCase()))` */
  function FindTimeLike(ks: seq<string>): Option<string>
  {
    if ks == [] then None
    else if IsTimeLike(ks[0]) then Some(ks[0])
    else FindTimeLike(ks[1..])
  }

  /** The x-axis key; `'step'` when the first record has no time-like key. */
  function TimeKey(data: seq<Record>): string
  {
    match FindTimeLike(FirstKeys(data))
    case Some(k) => k
    case None => "step"
  }

  /** `xs` is `ys` with some elements left out, the rest kept in order. */
  predicate Subsequence(xs: seq<string>, ys: seq<string>)
    decreases |ys|
  {
    if xs == [] then true
    else if ys == [] then false
    else (xs[0] == ys[0] && Subsequence(xs[1..], ys[1..])) || Subsequence(xs, ys[1..])
  }

  /** A key is plotted exactly when it is a key of the first record and not
      time-like. */
  lemma {:induction false} DropTimeLikeMembers(ks: seq<string>, k: string)
    ensures k in DropTimeLike(ks) <==> k in ks && !IsTimeLike(k)
    decreases |ks|
  {
    if ks != [] {
      DropTimeLikeMembers(ks[1..], k);
      assert ks == [ks[0]] + ks[1..];
    }
  }

  /** The filter keeps the original order. */
  lemma {:induction false} DropTimeLikeInOrder(ks: seq<string>)
    ensures Subsequence(DropTimeLike(ks), ks)
    decreases |ks|
  {
    if ks != [] {
      DropTimeLikeInOrder(ks[1..]);
      var rest := DropTimeLike(ks[1..]);
      if !IsTimeLike(ks[0]) {
        assert DropTimeLike(ks) == [ks[0]] + rest;
        assert DropTimeLike(ks)[1..] == rest;
      } else {
        assert DropTimeLike(ks) == rest;
      }
    }
  }

  /** Distinct keys give distinct lines. */
  lemma {:induction false} DropTimeLikeDistinct(ks: seq<string>)
    requires NoDuplicates(ks)
    ensures NoDuplicates(DropTimeLike(ks))
    decreases |ks|
  {
    if ks != [] {
      var rest := DropTimeLike(ks[1..]);
      assert NoDuplicates(ks[1..]) by {
        forall i, j | 0 <= i < j < |ks[1..]| ensures ks[1..][i] != ks[1..][j] {
          assert ks[1..][i] == ks[i + 1] && ks[1..][j] == ks[j + 1];
        }
      }
      DropTimeLikeDistinct(ks[1..]);
      if !IsTimeLike(ks[0]) {
        DropTimeLikeMembers(ks[1..], ks[0]);
        assert ks[0] !in ks[1..] by {
          forall i | 0 <= i < |ks[1..]| ensures ks[1..][i] != ks[0] {
            assert ks[1..][i] == ks[i + 1];
          }
        }
        var r := [ks[0]] + rest;
        assert DropTimeLike(ks) == r;
        forall i, j | 0 <= i < j < |r| ensures r[i] != r[j] {
          if i == 0 {
            assert r[j] == rest[j - 1] && r[j] in rest;
          } else {
            assert r[i] == rest[i - 1] && r[j] == rest[j - 1];
          }
        }
      }
    }
  }

  /** `find` returns the first time-like key, or nothing when there is none. */
  lemma {:induction false} FindTimeLikeFirst(ks: seq<string>)
    ensures FindTimeLike(ks).None? <==> forall i :: 0 <= i < |ks| ==> !IsTimeLike(ks[i])
    ensures FindTimeLike(ks).Some? ==>
              exists i :: 0 <= i < |ks| && ks[i] == FindTimeLike(ks).value && IsTimeLike(ks[i])
                && forall j :: 0 <= j < i ==> !IsTimeLike(ks[j])
    decreases |ks|
  {
    if ks != [] && !IsTimeLike(ks[0]) {
      FindTimeLikeFirst(ks[1..]);
      if FindTimeLike(ks[1..]).Some? {
        var i :| 0 <= i < |ks[1..]| && ks[1..][i] == FindTimeLike(ks[1..]).value && IsTimeLike(ks[1..][i])
                 && forall j :: 0 <= j < i ==> !IsTimeLike(ks[1..][j]);
        assert ks[i + 1] == ks[1..][i];
        forall j | 0 <= j < i + 1 ensures !IsTimeLike(ks[j]) {
          if j > 0 { assert ks[j] == ks[1..][j - 1]; }
        }
      } else {
        forall i | 0 <= i < |ks| ensures !IsTimeLike(ks[i]) {
          if i > 0 { assert ks[i] == ks[1..][i - 1]; }
        }
      }
    }
  }

  /** The lines are exactly the non-time-like keys of the first record, in
      its order and without repeats. */
  lemma LinesSpec(data: seq<Record>)
    ensures forall k :: k in Lines(data) <==> k in FirstKeys(data) && !IsTimeLike(k)
    ensures Subsequence(Lines(data), FirstKeys(data))
    ensures data != [] && DistinctKeys(data[0]) ==> NoDuplicates(Lines(data))
    ensures data == [] ==> Lines(data) == []
  {
    forall k ensures k in Lines(data) <==> k in FirstKeys(data) && !IsTimeLike(k) {
      DropTimeLikeMembers(FirstKeys(data), k);
    }
    DropTimeLikeInOrder(FirstKeys(data));
    if data != [] && DistinctKeys(data[0]) {
      DropTimeLikeDistinct(FirstKeys(data));
    }
  }

  /** The x-axis key is the first time-like key of the first record, and
      `'step'` when there is none (empty data included). */
  lemma TimeKeySpec(data: seq<Record>)
    ensures var ks := FirstKeys(data);
      (forall i :: 0 <= i < |ks| ==> !IsTimeLike(ks[i])) ==> TimeKey(data) == "step"
    ensures var ks := FirstKeys(data);
      (exists i :: 0 <= i < |ks| && IsTimeLike(ks[i])) ==>
        exists i :: 0 <= i < |ks| && ks[i] == TimeKey(data) && IsTimeLike(ks[i])
          && forall j :: 0 <= j < i ==> !IsTimeLike(ks[j])
    ensures data == [] ==> TimeKey(data) == "step"
  {
    FindTimeLikeFirst(FirstKeys(data));
  }

  /** The x-axis key is never also plotted as a line, and that includes the
      `'step'` default, which is itself time-like. */
  lemma TimeKeyNotPlotted(data: seq<Record>)
    ensures IsTimeLike(TimeKey(data))
    ensures TimeKey(data) !in Lines(data)
  {
    FindTimeLikeFirst(FirstKeys(data));
    if FindTimeLike(FirstKeys(data)).None? {
      assert Lower("step") == "step";
    }
    DropTimeLikeMembers(FirstKeys(data), TimeKey(data));
  }

  /** Records after the first do not influence the lines or the x axis. */
  lemma FirstRecordDecides(data: seq<Record>, other: seq<Record>)
    requires data != [] && other != [] && FirstKeys([data[0]]) == FirstKeys([other[0]])
    ensures Lines(data) == Lines(other) && TimeKey(data) == TimeKey(other)
  {
    assert FirstKeys(data) == FirstKeys([data[0]]);
    assert FirstKeys(other) == FirstKeys([other[0]]);
  }

  const Palette: seq<string> := ["#8884d8", "#82ca9d", "#ffc658", "#ff7300", "#0088fe"]

  /** `colors[index % colors.length]` */
  function GetColor(index: nat): (c: string)
    ensures c in Palette
  {
    Palette[index % |Palette|]
  }

  /** The colours repeat every five lines and the first one is `#8884d8`. */
  lemma GetColorPeriodic(index: nat)
    ensures GetColor(index + 5) == GetColor(index)
    ensures GetColor(0) == "#8884d8"
  {
  }

  /** `lines.map((key, index) => ...)` with `getColor(index)` as the stroke:
      the i-th line paired with its stroke colour. */
  function Series(data: seq<Record>): (s: seq<(string, string)>)
    ensures |s| == |Lines(data)|
    ensures forall i :: 0 <= i < |s| ==> s[i].1 in Palette
  {
    var lines := Lines(data);
    seq(|lines|, i requires 0 <= i < |lines| => (lines[i], GetColor(i)))
  }

  /** Each series plots a non-time-like key of the first record and never
      the x-axis key; the React keys are distinct when the record's keys
      are; the colours start at `#8884d8` and repeat every five series. */
  lemma SeriesSpec(data: seq<Record>)
    ensures var s := Series(data);
      forall i :: 0 <= i < |s| ==> s[i].0 in FirstKeys(data) && !IsTimeLike(s[i].0) && s[i].0 != TimeKey(data)
    ensures var s := Series(data);
      data != [] && DistinctKeys(data[0]) ==> forall i, j :: 0 <= i < j < |s| ==> s[i].0 != s[j].0
    ensures var s := Series(data);
      forall i :: 0 <= i < |s| - 5 ==> s[i + 5].1 == s[i].1
    ensures var s := Series(data);
      |s| > 0 ==> s[0].1 == "#8884d8"
  {
    var s := Series(data);
    var lines := Lines(data);
    LinesSpec(data);
    TimeKeyNotPlotted(data);
    forall i | 0 <= i < |s|
      ensures s[i].0 in FirstKeys(data) && !IsTimeLike(s[i].0) && s[i].0 != TimeKey(data)
    {
      assert s[i].0 == lines[i] && lines[i] in lines;
    }
    if data != [] && DistinctKeys(data[0]) {
      forall i, j | 0 <= i < j < |s| ensures s[i].0 != s[j].0 {
        assert s[i].0 == lines[i] && s[j].0 == lines[j];
      }
    }
    forall i | 0 <= i < |s| - 5 ensures s[i + 5].1 == s[i].1 {
      GetColorPeriodic(i);
      assert s[i + 5].1 == GetColor(i + 5) && s[i].1 == GetColor(i);
    }
    if |s| > 0 {
      GetColorPeriodic(0);
    }
  }

  /** The records `{time, value}`: the x axis is `time` and the one line is
      `value`, drawn in `#8884d8`. */
  lemma TimeValueChart(t: real, v: real, rest: seq<Record>)
    ensures var data := [[("time", NumCell(t)), ("value", NumCell(v))]] + rest;
      TimeKey(data) == "time" && Lines(data) == ["value"] && Series(data) == [("value", "#8884d8")]
  {
    var data := [[("time", NumCell(t)), ("value", NumCell(v))]] + rest;
    assert FirstKeys(data) == ["time", "value"];
    assert Lower("time") == "time";
    assert Lower("value") == "value";
    assert IsTimeLike("time") && !IsTimeLike("value");
    assert FirstKeys(data)[1..] == ["value"];
    assert ["value"][1..] == [];
    assert DropTimeLike(["value"]) == ["value"] + DropTimeLike([]);
  }
}
