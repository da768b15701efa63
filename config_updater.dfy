/**
  Path-based editing of a card configuration: a dotted path such as
  `colors.flow` names a key in nested records, and setting a value there
  walks a cursor down the records, replacing anything on the way that is
  not a record by an empty one, and writes the value at the last key.
 */
module ConfigUpdater {
  import opened Common

  /** A configuration value; arrays, `null` and scalars are all "not a record" here. */
  datatype Json =
    | Obj(fields: map<string, Json>)
    | Arr(items: seq<Json>)
    | Str(s: string)
    | Num(n: real)
    | Bool(b: bool)
    | Null

  type Record = map<string, Json>

  // ============================================================ paths

  /** `path.split('.').filter(Boolean)`: the non-empty dot-separated segments. */
  function Segments(path: string): (r: seq<string>)
    ensures forall k :: 0 <= k < |r| ==> r[k] != "" && '.' !in r[k]
    decreases |path|
  {
    if |path| == 0 then []
    else
      var head := BeforeFirst(path, '.');
      var rest := if |head| < |path| then Segments(path[|head| + 1..]) else [];
      if head == "" then rest else [head] + rest
  }

  /** A path made only of dots, or the empty path, has no segments. */
  lemma {:induction false} SegmentsEmptyIffOnlyDots(path: string)
    ensures Segments(path) == [] <==> forall k :: 0 <= k < |path| ==> path[k] == '.'
    decreases |path|
  {
    if |path| > 0 {
      var head := BeforeFirst(path, '.');
      if |head| < |path| {
        SegmentsEmptyIffOnlyDots(path[|head| + 1..]);
        if head == "" {
          assert path[0] == '.';
          assert forall k :: 1 <= k < |path| ==> path[k] == path[1..][k - 1];
        } else {
          assert path[0] != '.';
        }
      } else if head == "" {
        assert false;
      } else {
        assert path[0] == head[0] != '.';
      }
    }
  }

  /** Segments joined back with dots. */
  function Join(segs: seq<string>): string
  {
    if |segs| == 0 then "" else if |segs| == 1 then segs[0] else segs[0] + "." + Join(segs[1..])
  }

  /** Splitting a path written from non-empty, dot-free segments gives those segments back. */
  lemma {:induction false} SegmentsOfJoin(segs: seq<string>)
    requires forall k :: 0 <= k < |segs| ==> segs[k] != "" && '.' !in segs[k]
    ensures Segments(Join(segs)) == segs
  {
    if |segs| == 1 {
      BeforeFirstWhole(segs[0], '.');
    } else if |segs| > 1 {
      var path := Join(segs);
      BeforeFirstPrefix(segs[0], '.', Join(segs[1..]));
      assert path == segs[0] + ['.'] + Join(segs[1..]);
      assert path[|segs[0]| + 1..] == Join(segs[1..]);
      SegmentsOfJoin(segs[1..]);
      assert segs == [segs[0]] + segs[1..];
    }
  }

  // ======================================================= lookups

  /** The value at `path`, following records; none once a step is missing or not a record. */
  function GetPath(m: Record, path: seq<string>): Option<Json>
    requires |path| > 0
    decreases |path|
  {
    if path[0] !in m then None
    else if |path| == 1 then Some(m[path[0]])
    else if m[path[0]].Obj? then GetPath(m[path[0]].fields, path[1..])
    else None
  }

  /** The record the cursor stands on after following `path`, when every step is a record. */
  function RecordAt(m: Record, path: seq<string>): Option<Record>
    decreases |path|
  {
    if |path| == 0 then Some(m)
    else if path[0] in m && m[path[0]].Obj? then RecordAt(m[path[0]].fields, path[1..])
    else None
  }

  /** One more step of the cursor. */
  lemma {:induction false} RecordAtSnoc(m: Record, path: seq<string>, key: string)
    decreases |path|
    ensures RecordAt(m, path + [key]) ==
              (if RecordAt(m, path).Some? && key in RecordAt(m, path).value && RecordAt(m, path).value[key].Obj?
               then Some(RecordAt(m, path).value[key].fields) else None)
  {
    if |path| > 0 {
      assert (path + [key])[1..] == path[1..] + [key];
      if path[0] in m && m[path[0]].Obj? {
        RecordAtSnoc(m[path[0]].fields, path[1..], key);
      }
    }
  }

  /** `cursor[segment] = value` for the cursor at `path`. */
  function WriteThrough(m: Record, path: seq<string>, key: string, v: Json): Record
    requires RecordAt(m, path).Some?
    decreases |path|
  {
    if |path| == 0 then m[key := v]
    else m[path[0] := Obj(WriteThrough(m[path[0]].fields, path[1..], key, v))]
  }

  /** Where the cursor stands after writing a record under it, it can step into that record. */
  lemma {:induction false} WriteThroughRecord(m: Record, path: seq<string>, key: string, f: Record)
    requires RecordAt(m, path).Some?
    decreases |path|
    ensures RecordAt(WriteThrough(m, path, key, Obj(f)), path + [key]) == Some(f)
  {
    var w := WriteThrough(m, path, key, Obj(f));
    if |path| == 0 {
      assert path + [key] == [key];
    } else {
      assert (path + [key])[1..] == path[1..] + [key];
      WriteThroughRecord(m[path[0]].fields, path[1..], key, f);
    }
  }

  // ============================================================ update

  /** The record holding `key` in `m`, an empty record when there is none (`{}` for missing, null, arrays, scalars). */
  function RecordOrEmpty(m: Record, key: string): Record
  {
    if key in m && m[key].Obj? then m[key].fields else map[]
  }

  /** The configuration after setting `v` at `path`; an empty path changes nothing. */
  function SetIn(m: Record, path: seq<string>, v: Json): Record
    decreases |path|
  {
    if |path| == 0 then m
    else if |path| == 1 then m[path[0] := v]
    else m[path[0] := Obj(SetIn(RecordOrEmpty(m, path[0]), path[1..], v))]
  }

  /** After setting, the value at the path is the value set. */
  lemma {:induction false} GetAfterSet(m: Record, path: seq<string>, v: Json)
    requires |path| > 0
    decreases |path|
    ensures GetPath(SetIn(m, path, v), path) == Some(v)
  {
    if |path| > 1 {
      GetAfterSet(RecordOrEmpty(m, path[0]), path[1..], v);
    }
  }

  /** A path that leaves the updated path at some segment reads what it read before. */
  lemma {:induction false} OtherPathsUnchanged(m: Record, path: seq<string>, v: Json, other: seq<string>, k: nat)
    decreases |path|
    requires k < |path| && k < |other|
    requires path[..k] == other[..k] && path[k] != other[k]
    ensures GetPath(SetIn(m, path, v), other) == GetPath(m, other)
  {
    if k > 0 {
      assert path[0] == other[0];
      var child := RecordOrEmpty(m, path[0]);
      assert path[1..][..k - 1] == other[1..][..k - 1];
      OtherPathsUnchanged(child, path[1..], v, other[1..], k - 1);
      if path[0] in m && m[path[0]].Obj? {
      } else {
        EmptyHasNothing(other[1..]);
      }
    }
  }

  lemma EmptyHasNothing(path: seq<string>)
    requires |path| > 0
    ensures GetPath(map[], path) == None
  {
  }

  /**
    Along the path every step becomes a record; one that was not a record
    (missing, null, an array or a scalar) is now a record holding only the
    next segment.
   */
  lemma {:induction false} IntermediatesBecomeRecords(m: Record, path: seq<string>, v: Json, j: nat)
    decreases |path|
    requires 0 < j < |path|
    ensures var r := GetPath(SetIn(m, path, v), path[..j]);
            && r.Some? && r.value.Obj? && path[j] in r.value.fields
            && (!(GetPath(m, path[..j]).Some? && GetPath(m, path[..j]).value.Obj?) ==> r.value.fields.Keys == {path[j]})
  {
    var child := RecordOrEmpty(m, path[0]);
    if j > 1 {
      assert path[..j][1..] == path[1..][..j - 1];
      IntermediatesBecomeRecords(child, path[1..], v, j - 1);
      if !(path[0] in m && m[path[0]].Obj?) {
        EmptyHasNothing(path[1..][..j - 1]);
      }
    } else {
      assert path[..j] == [path[0]];
      var inner := SetIn(child, path[1..], v);
      if |path| == 2 {
        assert inner == child[path[1] := v];
      }
      if !(path[0] in m && m[path[0]].Obj?) {
        assert child == map[];
        SetInKeys(path[1..], v);
      }
    }
  }

  /** Setting into an empty record leaves exactly the first segment as its key. */
  lemma SetInKeys(path: seq<string>, v: Json)
    requires |path| > 0
    ensures SetIn(map[], path, v).Keys == {path[0]}
  {
  }

  /** A path of only dots (or none at all) leaves the configuration as it was. */
  lemma EmptyPathNoChange(m: Record, path: string, v: Json)
    requires forall k :: 0 <= k < |path| ==> path[k] == '.'
    ensures SetIn(m, Segments(path), v) == m
  {
    SegmentsEmptyIffOnlyDots(path);
  }

  /** A single key sets that key of the root record and nothing else. */
  lemma SingleKeySetsRootKey(m: Record, key: string, v: Json)
    requires key != "" && '.' !in key
    ensures SetIn(m, Segments(key), v) == m[key := v]
  {
    SegmentsOfJoin([key]);
  }

  // ===================================================== the cursor walk

  /** Writing an empty record where the walk finds none does not change the outcome of the update. */
  lemma {:induction false} PrepareKeepsUpdate(m: Record, path: seq<string>, v: Json, i: nat)
    decreases |path|
    requires i + 1 < |path|
    requires RecordAt(m, path[..i]).Some?
    requires !(path[i] in RecordAt(m, path[..i]).value && RecordAt(m, path[..i]).value[path[i]].Obj?)
    ensures SetIn(WriteThrough(m, path[..i], path[i], Obj(map[])), path, v) == SetIn(m, path, v)
  {
    if i > 0 {
      assert path[..i][1..] == path[1..][..i - 1];
      assert path[1..][i - 1] == path[i];
      PrepareKeepsUpdate(m[path[0]].fields, path[1..], v, i - 1);
    }
  }

  /** With the cursor on the record before the last segment, writing the value there is the whole update. */
  lemma {:induction false} LastWriteIsUpdate(m: Record, path: seq<string>, v: Json)
    decreases |path|
    requires |path| > 0
    requires RecordAt(m, path[..|path| - 1]).Some?
    ensures WriteThrough(m, path[..|path| - 1], path[|path| - 1], v) == SetIn(m, path, v)
  {
    if |path| > 1 {
      var n := |path| - 1;
      assert path[..n][1..] == path[1..][..n - 1];
      LastWriteIsUpdate(m[path[0]].fields, path[1..], v);
    }
  }

  class ConfigRecord {
    var root: Record

    constructor (initial: Record)
      ensures root == initial
    {
      root := initial;
    }

    /**
      `setConfigValueAtPath`: walks the cursor down the segments, puts an
      empty record at each step that has none, and writes the value at the
      last segment.
     */
    method SetValueAtPath(path: string, value: Json)
      modifies this
      ensures root == SetIn(old(root), Segments(path), value)
    {
      var segments := Segments(path);
      if |segments| == 0 {
        return;
      }
      var i := 0;
      while i < |segments| - 1
        invariant 0 <= i <= |segments| - 1
        invariant RecordAt(root, segments[..i]).Some?
        invariant SetIn(root, segments, value) == SetIn(old(root), segments, value)
      {
        var cursor := RecordAt(root, segments[..i]).value;
        var segment := segments[i];
        assert segments[..i + 1] == segments[..i] + [segment];
        RecordAtSnoc(root, segments[..i], segment);
        if !(segment in cursor && cursor[segment].Obj?) {
          PrepareKeepsUpdate(root, segments, value, i);
          WriteThroughRecord(root, segments[..i], segment, map[]);
          root := WriteThrough(root, segments[..i], segment, Obj(map[]));
        }
        i := i + 1;
      }
      LastWriteIsUpdate(root, segments, value);
      root := WriteThrough(root, segments[..|segments| - 1], segments[|segments| - 1], value);
    }

    /** `cloneAndSetConfigPath`: a fresh copy with the value set; this configuration is left as it was. */
    method CloneAndSet(path: string, value: Json) returns (c: ConfigRecord)
      ensures fresh(c)
      ensures c.root == SetIn(root, Segments(path), value)
    {
      c := new ConfigRecord(root);
      c.SetValueAtPath(path, value);
    }
  }
}
