/**
 * `loadLables` and the language selection of val.py and main.py (the two
 * files carry the same code): pairing the English label table with the
 * selected-label table, keeping the entries whose selected value has the form
 * "<class>_..._<name>", and choosing which names the classifier is set up with.
 */
module Labels {
  import opened Wrappers

  /** The separator between the class name and the Chinese name in a selected value. */
  const Sep: char := '_'

  /** A kept label: its position among all paired entries, English name, Chinese name and class. */
  datatype Label = Label(idx: nat, nameEn: string, nameCn: string, className: string)

  /** The keys of the two tables disagree at this pair position (the `assert key1 == key2`). */
  datatype LabelError = KeyMismatch(idx: nat)

  /** A JSON object read in file order: its (key, value) items. */
  type Table = seq<(string, string)>

  /** Python's `s.split(sep)` for a one-character separator: the pieces between separators, at least one. */
  function Split(s: string, sep: char): (r: seq<string>)
    ensures |r| >= 1
    decreases |s|
  {
    if |s| == 0 then [""]
    else
      var rest := Split(s[1..], sep);
      if s[0] == sep then [""] + rest else [[s[0]] + rest[0]] + rest[1..]
  }

  /** Python's `sep.join(parts)`. */
  function Join(parts: seq<string>, sep: char): string
    requires |parts| >= 1
    decreases |parts|
  {
    if |parts| == 1 then parts[0] else parts[0] + [sep] + Join(parts[1..], sep)
  }

  /** Joining the pieces back with the separator gives the original string. */
  lemma {:induction false} JoinSplit(s: string, sep: char)
    ensures Join(Split(s, sep), sep) == s
    decreases |s|
  {
    if |s| > 0 {
      var rest := Split(s[1..], sep);
      JoinSplit(s[1..], sep);
      if s[0] == sep {
        assert Split(s, sep)[1..] == rest;
      } else {
        var r := Split(s, sep);
        if |rest| == 1 {
          assert r == [[s[0]] + rest[0]];
        } else {
          assert r[1..] == rest[1..];
          assert Join(rest, sep) == rest[0] + [sep] + Join(rest[1..], sep);
        }
      }
    }
  }

  /** No piece contains the separator. */
  lemma {:induction false} SplitPiecesFree(s: string, sep: char)
    ensures forall k :: 0 <= k < |Split(s, sep)| ==> sep !in Split(s, sep)[k]
    decreases |s|
  {
    if |s| > 0 {
      SplitPiecesFree(s[1..], sep);
      var rest := Split(s[1..], sep);
      var r := Split(s, sep);
      if s[0] != sep {
        forall k | 0 <= k < |r| ensures sep !in r[k] {
          if k > 0 {
            assert r[k] == rest[k];
          }
        }
      }
    }
  }

  /** The string has a separator exactly when it splits into two or more pieces. */
  lemma {:induction false} SplitHasSeveralPieces(s: string, sep: char)
    ensures sep in s <==> |Split(s, sep)| >= 2
    decreases |s|
  {
    if |s| > 0 {
      SplitHasSeveralPieces(s[1..], sep);
      assert sep in s <==> s[0] == sep || sep in s[1..];
    }
  }

  /** Splitting a join of separator-free pieces gives the pieces back: the split is the only such decomposition. */
  lemma {:induction false} SplitJoin(parts: seq<string>, sep: char)
    requires |parts| >= 1
    requires forall k :: 0 <= k < |parts| ==> sep !in parts[k]
    ensures Split(Join(parts, sep), sep) == parts
    decreases |parts|, |parts[0]|
  {
    var head := parts[0];
    if |head| > 0 {
      var shorter := parts[0 := head[1..]];
      assert sep !in head[1..] by {
        assert forall x :: x in head[1..] ==> x in head;
      }
      SplitJoin(shorter, sep);
      var s := Join(parts, sep);
      var t := Join(shorter, sep);
      if |parts| == 1 {
        assert s == head && t == head[1..];
      } else {
        assert shorter[1..] == parts[1..];
        assert s == head + [sep] + Join(parts[1..], sep);
        assert t == head[1..] + [sep] + Join(parts[1..], sep);
      }
      assert s[0] == head[0] && s[1..] == t;
      assert head[0] in head;
      assert [head[0]] + head[1..] == head;
      assert shorter[1..] == parts[1..];
    } else if |parts| == 1 {
    } else {
      var s := Join(parts, sep);
      assert s == [sep] + Join(parts[1..], sep);
      assert s[1..] == Join(parts[1..], sep);
      SplitJoin(parts[1..], sep);
      assert [""] + parts[1..] == parts;
    }
  }

  /** `value.split("_")[0]`: the class name. */
  function FirstPiece(value: string): string
  {
    Split(value, Sep)[0]
  }

  /** `value.split("_")[-1]`: the Chinese name. */
  function LastPiece(value: string): string
  {
    var pieces := Split(value, Sep);
    pieces[|pieces| - 1]
  }

  /**
   * The class name is everything before the first separator and the Chinese
   * name everything after the last one; neither holds a separator, and a
   * value with exactly one separator is their join.
   */
  lemma PiecesOfSelectedValue(value: string)
    requires Sep in value
    ensures Sep !in FirstPiece(value) && Sep !in LastPiece(value)
    ensures exists middle :: value == FirstPiece(value) + [Sep] + middle
    ensures exists front :: value == front + [Sep] + LastPiece(value)
    ensures |Split(value, Sep)| == 2 ==> value == FirstPiece(value) + [Sep] + LastPiece(value)
  {
    var pieces := Split(value, Sep);
    SplitPiecesFree(value, Sep);
    SplitHasSeveralPieces(value, Sep);
    JoinSplit(value, Sep);
    assert Join(pieces, Sep) == pieces[0] + [Sep] + Join(pieces[1..], Sep);
    JoinLast(pieces, Sep);
    if |pieces| == 2 {
      assert pieces[1..] == [pieces[1]];
    }
  }

  /** A join of at least two pieces ends with a separator and the last piece. */
  lemma {:induction false} JoinLast(parts: seq<string>, sep: char)
    requires |parts| >= 2
    ensures exists front :: Join(parts, sep) == front + [sep] + parts[|parts| - 1]
    decreases |parts|
  {
    if |parts| == 2 {
      assert Join(parts, sep) == parts[0] + [sep] + parts[1];
    } else {
      JoinLast(parts[1..], sep);
      var front :| Join(parts[1..], sep) == front + [sep] + parts[1..][|parts| - 2];
      assert Join(parts, sep) == (parts[0] + [sep] + front) + [sep] + parts[|parts| - 1];
    }
  }

  /** The label built for pair `i` once its keys matched and its selected value holds a separator. */
  function EntryAt(labelData: Table, selectData: Table, i: nat): Label
    requires i < |labelData| && i < |selectData|
  {
    Label(i, labelData[i].1, LastPiece(selectData[i].1), FirstPiece(selectData[i].1))
  }

  /** The number of pairs `zip` yields. */
  function Paired(labelData: Table, selectData: Table): nat
  {
    if |labelData| <= |selectData| then |labelData| else |selectData|
  }

  predicate KeysDiffer(labelData: Table, selectData: Table, i: int)
  {
    0 <= i < |labelData| && i < |selectData| && labelData[i].0 != selectData[i].0
  }

  /** The labels after the first `n` pairs, or the first key mismatch among them. */
  function LabelsOf(labelData: Table, selectData: Table, n: nat): Result<seq<Label>, LabelError>
    requires n <= |labelData| && n <= |selectData|
  {
    if n == 0 then Ok([])
    else
      match LabelsOf(labelData, selectData, n - 1)
      case Err(e) => Err(e)
      case Ok(prev) =>
        if labelData[n - 1].0 != selectData[n - 1].0 then Err(KeyMismatch(n - 1))
        else if Sep !in selectData[n - 1].1 then Ok(prev)
        else Ok(prev + [EntryAt(labelData, selectData, n - 1)])
  }

  /** `loadLables`, over the two tables already read from their files. */
  method LoadLabels(labelData: Table, selectData: Table) returns (r: Result<seq<Label>, LabelError>)
    ensures r == LabelsOf(labelData, selectData, Paired(labelData, selectData))
  {
    var n := if |labelData| <= |selectData| then |labelData| else |selectData|;
    var labels: seq<Label> := [];
    var idx := 0;
    while idx < n
      invariant 0 <= idx <= n
      invariant LabelsOf(labelData, selectData, idx) == Ok(labels)
    {
      var (key1, value1) := labelData[idx];
      var (key2, value2) := selectData[idx];
      if key1 != key2 {
        MismatchSticks(labelData, selectData, idx + 1, n);
        return Err(KeyMismatch(idx));
      }
      if Sep in value2 {
        var nameEn := value1;
        var nameCn := LastPiece(value2);
        var className := FirstPiece(value2);
        labels := labels + [Label(idx, nameEn, nameCn, className)];
      }
      idx := idx + 1;
    }
    r := Ok(labels);
  }

  /** Once a prefix fails, every longer prefix fails with the same error. */
  lemma {:induction false} MismatchSticks(labelData: Table, selectData: Table, m: nat, n: nat)
    requires m <= n <= |labelData| && n <= |selectData|
    requires LabelsOf(labelData, selectData, m).Err?
    ensures LabelsOf(labelData, selectData, n) == LabelsOf(labelData, selectData, m)
    decreases n - m
  {
    if m < n {
      MismatchSticks(labelData, selectData, m, n - 1);
    }
  }

  /** Loading fails exactly when some pair's keys differ, and it names the first such pair. */
  lemma {:induction false} LabelsOfErr(labelData: Table, selectData: Table, n: nat)
    requires n <= |labelData| && n <= |selectData|
    ensures LabelsOf(labelData, selectData, n).Err? <==> exists i :: 0 <= i < n && KeysDiffer(labelData, selectData, i)
    ensures LabelsOf(labelData, selectData, n).Err? ==>
              var i := LabelsOf(labelData, selectData, n).error.idx;
              i < n && KeysDiffer(labelData, selectData, i) &&
              forall j :: 0 <= j < i ==> !KeysDiffer(labelData, selectData, j)
  {
    if n > 0 {
      LabelsOfErr(labelData, selectData, n - 1);
      if LabelsOf(labelData, selectData, n - 1).Ok? {
        if KeysDiffer(labelData, selectData, n - 1) {
          assert LabelsOf(labelData, selectData, n).Err?;
        } else {
          assert LabelsOf(labelData, selectData, n).Ok?;
          forall i | 0 <= i < n ensures !KeysDiffer(labelData, selectData, i) {
          }
        }
      }
    }
  }

  /**
   * A successful load holds, in ascending pair position, exactly one label
   * for each pair whose selected value contains a separator, built from that
   * pair's values.
   */
  lemma {:induction false} LabelsOfOk(labelData: Table, selectData: Table, n: nat)
    requires n <= |labelData| && n <= |selectData|
    requires LabelsOf(labelData, selectData, n).Ok?
    ensures var labels := LabelsOf(labelData, selectData, n).value;
            && (forall a, b :: 0 <= a < b < |labels| ==> labels[a].idx < labels[b].idx)
            && (forall k :: 0 <= k < |labels| ==>
                  labels[k].idx < n && Sep in selectData[labels[k].idx].1
                  && labels[k] == EntryAt(labelData, selectData, labels[k].idx))
            && (forall i :: 0 <= i < n && Sep in selectData[i].1 ==> EntryAt(labelData, selectData, i) in labels)
  {
    if n > 0 {
      LabelsOfOk(labelData, selectData, n - 1);
      var prev := LabelsOf(labelData, selectData, n - 1).value;
      var labels := LabelsOf(labelData, selectData, n).value;
      if Sep in selectData[n - 1].1 {
        assert labels == prev + [EntryAt(labelData, selectData, n - 1)];
        forall i | 0 <= i < n && Sep in selectData[i].1
          ensures EntryAt(labelData, selectData, i) in labels
        {
          if i < n - 1 {
            var k :| 0 <= k < |prev| && prev[k] == EntryAt(labelData, selectData, i);
            assert labels[k] == prev[k];
          } else {
            assert labels[|labels| - 1] == EntryAt(labelData, selectData, i);
          }
        }
      }
    }
  }

  /** ASCII lower-casing, one character. */
  function LowerChar(c: char): char
  {
    if 'A' <= c <= 'Z' then (c as int - 'A' as int + 'a' as int) as char else c
  }

  /** `s.lower()` on ASCII letters. */
  function Lower(s: string): (r: string)
    ensures |r| == |s|
    ensures forall k :: 0 <= k < |s| ==> r[k] == LowerChar(s[k])
  {
    seq(|s|, k requires 0 <= k < |s| => LowerChar(s[k]))
  }

  /** Lower-casing twice is lower-casing once. */
  lemma LowerIdempotent(s: string)
    ensures Lower(Lower(s)) == Lower(s)
  {
  }

  /**
   * The names the classifier is set up with: the English names for "en", the
   * Chinese names for "cn" (either in any letter case), in label order;
   * `None` for any other language, where `obj_names` is never bound.
   */
  function SelectNames(language: string, labels: seq<Label>): (r: Option<seq<string>>)
  {
    if Lower(language) == "en" then Some(seq(|labels|, k requires 0 <= k < |labels| => labels[k].nameEn))
    else if Lower(language) == "cn" then Some(seq(|labels|, k requires 0 <= k < |labels| => labels[k].nameCn))
    else None
  }

  /**
   * Selection accepts exactly the two languages, keeps one name per label in
   * label order, takes field 1 for English and field 2 for Chinese, and does
   * not depend on letter case.
   */
  lemma SelectNamesMeaning(language: string, labels: seq<Label>)
    ensures SelectNames(language, labels).Some? <==> Lower(language) == "en" || Lower(language) == "cn"
    ensures SelectNames(language, labels).Some? ==> |SelectNames(language, labels).value| == |labels|
    ensures Lower(language) == "en" ==>
              forall k :: 0 <= k < |labels| ==> SelectNames(language, labels).value[k] == labels[k].nameEn
    ensures Lower(language) == "cn" ==>
              forall k :: 0 <= k < |labels| ==> SelectNames(language, labels).value[k] == labels[k].nameCn
    ensures SelectNames(Lower(language), labels) == SelectNames(language, labels)
  {
    LowerIdempotent(language);
  }

  /** "CN" selects the Chinese names just as "cn" does. */
  lemma UpperCaseLanguage(labels: seq<Label>)
    ensures SelectNames("CN", labels) == SelectNames("cn", labels)
  {
    assert Lower("CN") == "cn";
    assert Lower("cn") == "cn";
  }
}
