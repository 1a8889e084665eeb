/** Normalising recorded responses before comparing them: which differences it hides, exactly. */
module ReferenceNormalizer {
  import opened Prelude

  datatype Json =
    | Null
    | Bool(flag: bool)
    | Num(number: real)
    | Str(text: string)
    | Arr(items: seq<Json>)
    | Obj(fields: map<string, Json>)

  type Path = seq<string>

  /** The fields whose value may vary from run to run. */
  const ALLOWED: set<Path> := {
    ["id"], ["result", "rrn"], ["result", "auth_code"], ["result", "receipt_no"], ["result", "invoice_num"],
    ["result", "date_time"], ["result", "additional_properties", "transactionUid"]}

  const UID: Path := ["result", "additional_properties", "transactionUid"]

  datatype Fault = BrokenCorrelation | NotAllowed(path: Path) | NotScalar(path: Path) | InvalidMapping

  function Get(v: Json, p: Path): Option<Json>
    decreases |p|
  {
    if p == [] then Some(v)
    else if v.Obj? && p[0] in v.fields then Get(v.fields[p[0]], p[1..])
    else None
  }

  /** The SSI transactionUid, when present, is the operation id: equal as strings, numbers, booleans or
      null, never as two separate containers. */
  predicate Correlated(v: Json) {
    var uid := Get(v, UID);
    uid.Some? ==> !uid.value.Arr? && !uid.value.Obj? && Get(v, ["id"]) == uid
  }

  // ---------------------------------------------------------------- one field

  const STRING_MARK := Str("<variable:string>")
  const NUMBER_MARK := Str("<variable:number>")

  /** The value with the field at `path` replaced by a mark of its type, unless it holds another kind
      of value. */
  function Mask(v: Json, path: Path): Option<Json>
    requires path != []
    decreases |path|
  {
    if !v.Obj? || path[0] !in v.fields then Some(v)
    else
      var key, child := path[0], v.fields[path[0]];
      if |path| > 1 then
        var inner := Mask(child, path[1..]);
        if inner.None? then None else Some(Obj(v.fields[key := inner.value]))
      else
        match child
        case Null => Some(v)
        case Str(_) => Some(Obj(v.fields[key := STRING_MARK]))
        case Num(_) => Some(Obj(v.fields[key := NUMBER_MARK]))
        case _ => None
  }

  /** All listed fields in turn. */
  function MaskAll(v: Json, paths: seq<Path>): Result<Json, Fault>
    decreases |paths|
  {
    if paths == [] then Ok(v)
    else if paths[0] !in ALLOWED then Err(NotAllowed(paths[0]))
    else
      var one := Mask(v, paths[0]);
      if one.None? then Err(NotScalar(paths[0])) else MaskAll(one.value, paths[1..])
  }

  function Normalize(v: Json, paths: seq<Path>): Result<Json, Fault> {
    if !Correlated(v) then Err(BrokenCorrelation) else MaskAll(v, paths)
  }

  /** The loop over the listed paths, on a copy that is updated field by field. */
  method NormalizeReference(value: Json, paths: seq<Path>) returns (copy: Result<Json, Fault>)
    ensures copy == Normalize(value, paths)
  {
    if !Correlated(value) { return Err(BrokenCorrelation); }
    var working := value;
    var i := 0;
    while i < |paths|
      invariant i <= |paths| && MaskAll(value, paths) == MaskAll(working, paths[i..])
    {
      if paths[i] !in ALLOWED { return Err(NotAllowed(paths[i])); }
      var masked := Mask(working, paths[i]);
      if masked.None? { return Err(NotScalar(paths[i])); }
      working := masked.value;
      i := i + 1;
    }
    copy := Ok(working);
  }

  // ---------------------------------------------------------------- what can be seen at a path

  /** What a reader sees at one path: nothing, a value that is not an object, or an object's keys. */
  datatype Sight = Absent | Leaf(value: Json) | Keys(keys: set<string>)

  function Look(v: Json): Sight { if v.Obj? then Keys(v.fields.Keys) else Leaf(v) }

  function At(v: Json, p: Path): Sight {
    var found := Get(v, p);
    if found.None? then Absent else Look(found.value)
  }

  ghost predicate SameEverywhere(a: Json, b: Json) { forall p: Path :: At(a, p) == At(b, p) }

  lemma AtChild(v: Json, key: string, p: Path)
    requires v.Obj? && key in v.fields
    ensures At(v, [key] + p) == At(v.fields[key], p)
  {
    assert ([key] + p)[1..] == p;
  }

  lemma AtKey(v: Json, p: Path)
    requires |p| == 1
    ensures At(v, p) == if v.Obj? && p[0] in v.fields then Look(v.fields[p[0]]) else Absent
  {
    if v.Obj? && p[0] in v.fields {
      assert Get(v.fields[p[0]], p[1..]) == Some(v.fields[p[0]]);
    }
  }

  lemma AtStep(v: Json, p: Path)
    requires p != []
    ensures At(v, p) == if v.Obj? && p[0] in v.fields then At(v.fields[p[0]], p[1..]) else Absent
  {
  }

  lemma AtBelowLeaf(v: Json, p: Path)
    requires p != [] && !v.Obj?
    ensures At(v, p) == Absent
  {
  }

  /** A value is determined by what can be seen at its paths. */
  lemma {:induction false} SeenIsAll(a: Json, b: Json)
    requires SameEverywhere(a, b)
    ensures a == b
    decreases a
  {
    assert At(a, []) == At(b, []);
    if a.Obj? {
      forall key | key in a.fields ensures a.fields[key] == b.fields[key] {
        forall p: Path ensures At(a.fields[key], p) == At(b.fields[key], p) {
          AtChild(a, key, p);
          AtChild(b, key, p);
        }
        SeenIsAll(a.fields[key], b.fields[key]);
      }
    }
  }

  datatype Kind = Missing | Nothing | Text | Number | Other

  function KindOf(s: Sight): Kind {
    match s
    case Absent => Missing
    case Leaf(Null) => Nothing
    case Leaf(Str(_)) => Text
    case Leaf(Num(_)) => Number
    case _ => Other
  }

  /** What a masked field shows. */
  function Marked(s: Sight): Sight {
    match KindOf(s)
    case Text => Leaf(STRING_MARK)
    case Number => Leaf(NUMBER_MARK)
    case _ => s
  }

  /** Masking one field changes what is seen at that path and nowhere else; it fails exactly on a field
      that is neither absent, null, string nor number. */
  lemma {:induction false} MaskSeen(v: Json, path: Path, p: Path)
    requires path != []
    ensures Mask(v, path).Some? <==> !KindOf(At(v, path)).Other?
    ensures Mask(v, path).Some? ==> At(Mask(v, path).value, p) == if p == path then Marked(At(v, p)) else At(v, p)
    decreases |path|
  {
    if v.Obj? && path[0] in v.fields {
      var child := v.fields[path[0]];
      if |path| > 1 {
        if p != [] && p[0] == path[0] {
          MaskSeen(child, path[1..], p[1..]);
          assert p == path <==> p[1..] == path[1..] by { assert p == [p[0]] + p[1..] && path == [path[0]] + path[1..]; }
        } else {
          MaskSeen(child, path[1..], []);
        }
      } else {
        AtKey(v, path);
        if Mask(v, path).Some? {
          SetKeySeen(v, Mask(v, path).value, path, p);
        }
      }
    }
  }

  /** Replacing one scalar member by another shows at its own path only. */
  lemma SetKeySeen(v: Json, w: Json, path: Path, p: Path)
    requires |path| == 1 && v.Obj? && path[0] in v.fields
    requires w.Obj? && path[0] in w.fields && w.fields == v.fields[path[0] := w.fields[path[0]]]
    requires w == v || (!v.fields[path[0]].Obj? && !w.fields[path[0]].Obj?)
    ensures At(w, p) == if p == path then Look(w.fields[path[0]]) else At(v, p)
  {
    AtKey(v, path);
    AtKey(w, path);
    if p != [] {
      AtStep(v, p);
      AtStep(w, p);
      if p[0] == path[0] && p != path {
        assert p == [p[0]] + p[1..] && path == [path[0]] + [];
        if w != v {
          AtBelowLeaf(v.fields[path[0]], p[1..]);
          AtBelowLeaf(w.fields[path[0]], p[1..]);
        }
      }
    }
  }

  /** What a field shows once it has been masked `times` times. */
  function MarkedTimes(s: Sight, times: nat): Sight
    decreases times
  {
    if times == 0 then s else MarkedTimes(Marked(s), times - 1)
  }

  lemma {:induction false} MaskAllSucceeds(v: Json, paths: seq<Path>)
    ensures MaskAll(v, paths).Ok?
       <==> forall q :: q in paths ==> q in ALLOWED && !KindOf(At(v, q)).Other?
    decreases |paths|
  {
    if paths != [] && paths[0] in ALLOWED {
      var q, rest := paths[0], paths[1..];
      AllowedNotEmpty(q);
      MaskSeen(v, q, q);
      assert paths == [q] + rest;
      if Mask(v, q).Some? {
        var masked := Mask(v, q).value;
        MaskAllSucceeds(masked, rest);
        forall r ensures KindOf(At(masked, r)).Other? <==> KindOf(At(v, r)).Other? {
          MaskSeen(v, q, r);
        }
        hide Mask;
        hide At;
        hide KindOf;
      }
    }
  }

  lemma {:induction false} MaskAllShows(v: Json, paths: seq<Path>, p: Path)
    requires MaskAll(v, paths).Ok?
    ensures At(MaskAll(v, paths).value, p) == MarkedTimes(At(v, p), multiset(paths)[p])
    decreases |paths|
  {
    if paths != [] {
      var q, rest := paths[0], paths[1..];
      AllowedNotEmpty(q);
      hide Mask;
      hide At;
      hide Marked;
      MaskSeen(v, q, p);
      MaskAllShows(Mask(v, q).value, rest, p);
      assert paths == [q] + rest;
      assert multiset(paths)[p] == multiset(rest)[p] + if p == q then 1 else 0;
    }
  }

  /** Masking a list succeeds exactly when every path is allowed and holds nothing, null, a string or a
      number; each field then shows the marks of as many maskings as the list names it. */
  lemma MaskAllSeen(v: Json, paths: seq<Path>, p: Path)
    ensures MaskAll(v, paths).Ok?
       <==> forall q :: q in paths ==> q in ALLOWED && !KindOf(At(v, q)).Other?
    ensures MaskAll(v, paths).Ok? ==>
      At(MaskAll(v, paths).value, p) == MarkedTimes(At(v, p), multiset(paths)[p])
  {
    MaskAllSucceeds(v, paths);
    if MaskAll(v, paths).Ok? {
      MaskAllShows(v, paths, p);
    }
    hide *;
  }

  lemma AllowedNotEmpty(q: Path)
    requires q in ALLOWED
    ensures q != []
  {
  }

  /** A field that varies from run to run: the operation id, here and as transactionUid, and five of the result. */
  predicate Varies(p: Path) {
    || p == ["id"] || p == ["result", "additional_properties", "transactionUid"]
    || (|p| == 2 && p[0] == "result" && p[1] in {"rrn", "auth_code", "receipt_no", "invoice_num", "date_time"})
  }

  lemma AllowedVaries(p: Path)
    ensures p in ALLOWED <==> Varies(p)
  {
    if |p| == 2 { assert p == [p[0], p[1]]; }
  }

  /** The first listed path that does not vary, or holds what no mark stands for, is the one complained of. */
  lemma {:induction false} FirstFaultTold(v: Json, paths: seq<Path>, i: nat)
    requires i < |paths| && forall k :: 0 <= k < i ==> Varies(paths[k]) && !KindOf(At(v, paths[k])).Other?
    requires !Varies(paths[i]) || KindOf(At(v, paths[i])).Other?
    ensures MaskAll(v, paths) == Err(if Varies(paths[i]) then NotScalar(paths[i]) else NotAllowed(paths[i]))
    decreases i
  {
    hide Varies;
    hide Mask;
    hide At;
    hide Marked;
    AllowedVaries(paths[0]);
    if paths[0] in ALLOWED { AllowedNotEmpty(paths[0]); MaskSeen(v, paths[0], paths[i]); }
    if i > 0 {
      var masked := Mask(v, paths[0]).value;
      forall k | 0 <= k < i - 1 ensures !KindOf(At(masked, paths[1..][k])).Other? {
        MaskSeen(v, paths[0], paths[k + 1]);
        StillScalar(At(v, paths[k + 1]));
      }
      StillScalar(At(v, paths[i]));
      assert paths[1..][i - 1] == paths[i];
      FirstFaultTold(masked, paths[1..], i - 1);
    }
  }

  lemma StillScalar(s: Sight)
    ensures KindOf(Marked(s)).Other? <==> KindOf(s).Other?
  {
  }

  /** A body is turned away for its identifiers exactly when it has a transactionUid that is no scalar or is not
      its id. */
  lemma BrokenCorrelationExactly(v: Json, paths: seq<Path>)
    ensures var uid, id := At(v, ["result", "additional_properties", "transactionUid"]), At(v, ["id"]);
      Normalize(v, paths) == Err(BrokenCorrelation)
      <==> uid != Absent && (uid.Keys? || uid.value.Arr? || uid != id)
  {
    NeverBroken(v, paths);
  }

  lemma {:induction false} NeverBroken(v: Json, paths: seq<Path>)
    ensures MaskAll(v, paths) != Err(BrokenCorrelation)
    decreases |paths|
  {
    if paths != [] && paths[0] in ALLOWED {
      AllowedNotEmpty(paths[0]);
      if Mask(v, paths[0]).Some? { NeverBroken(Mask(v, paths[0]).value, paths[1..]); }
    }
  }

  // ---------------------------------------------------------------- the equality kernel

  /** Equal at every path that is not listed. */
  ghost predicate AgreeElsewhere(a: Json, b: Json, paths: seq<Path>) {
    forall p: Path :: p !in paths ==> At(a, p) == At(b, p)
  }

  /** At each listed path both absent, both null, both strings or both numbers. */
  predicate SameKinds(a: Json, b: Json, paths: seq<Path>) {
    forall p :: p in paths ==> KindOf(At(a, p)) == KindOf(At(b, p))
  }

  predicate AllAllowed(paths: seq<Path>) { forall p :: p in paths ==> p in ALLOWED }

  /** No field is listed twice, except that transactionUid may be. */
  predicate OnlyUidRepeats(paths: seq<Path>) {
    forall p :: p in paths && p != UID ==> multiset(paths)[p] == 1
  }

  /** Marks tell what a field held: nothing of it beyond its kind, and from the second mark on not even
      whether it was a string or a number. */
  lemma {:induction false} MarksTellKinds(a: Sight, b: Sight, times: nat)
    requires !KindOf(a).Other? && !KindOf(b).Other?
    ensures KindOf(a) == KindOf(b) && times > 0 ==> MarkedTimes(a, times) == MarkedTimes(b, times)
    ensures times == 1 && MarkedTimes(a, times) == MarkedTimes(b, times) ==> KindOf(a) == KindOf(b)
    ensures MarkedTimes(a, times) == MarkedTimes(b, times) ==>
      KindOf(a) == KindOf(b) || (KindOf(a) in {Text, Number} && KindOf(b) in {Text, Number})
    ensures times >= 2 && KindOf(a) in {Text, Number} && KindOf(b) in {Text, Number} ==>
      MarkedTimes(a, times) == MarkedTimes(b, times)
    decreases times
  {
    if times > 0 {
      MarksTellKinds(Marked(a), Marked(b), times - 1);
    }
    if times > 1 {
      assert MarkedTimes(a, times) == MarkedTimes(Marked(Marked(a)), times - 2);
      assert MarkedTimes(b, times) == MarkedTimes(Marked(Marked(b)), times - 2);
    }
  }

  /** A transactionUid that is present shows what the id shows. */
  lemma UidShowsId(v: Json)
    requires Correlated(v) && !At(v, UID).Absent?
    ensures At(v, UID) == At(v, ["id"])
  {
  }

  /** Bodies that normalise alike have transactionUids of one kind, however often it is listed. */
  lemma UidKindsAgree(a: Json, b: Json, paths: seq<Path>)
    requires OnlyUidRepeats(paths) && Normalize(a, paths).Ok? && Normalize(a, paths) == Normalize(b, paths)
    requires UID in paths
    ensures KindOf(At(a, UID)) == KindOf(At(b, UID))
  {
    var id: Path := ["id"];
    MaskAllSeen(a, paths, UID);
    MaskAllSeen(b, paths, UID);
    MaskAllSeen(a, paths, id);
    MaskAllSeen(b, paths, id);
    MarksTellKinds(At(a, UID), At(b, UID), multiset(paths)[UID]);
    if !At(a, UID).Absent? && !At(b, UID).Absent? {
      UidShowsId(a);
      UidShowsId(b);
      assert |id| != |UID|;
      MarksTellKinds(At(a, id), At(b, id), multiset(paths)[id]);
      hide MaskAll;
      hide Correlated;
      hide At;
      assert id in paths ==> multiset(paths)[id] == 1;
      assert id !in paths ==> multiset(paths)[id] == 0;
      assert KindOf(At(a, id)) == KindOf(At(b, id));
    }
  }

  /** Two bodies normalise to the same value exactly when they agree at every unlisted path and hold
      values of the same kind at every listed one. */
  lemma NormalizationHidesExactly(a: Json, b: Json, paths: seq<Path>)
    requires OnlyUidRepeats(paths) && Normalize(a, paths).Ok? && Normalize(b, paths).Ok?
    ensures Normalize(a, paths) == Normalize(b, paths) <==> AgreeElsewhere(a, b, paths) && SameKinds(a, b, paths)
  {
    var x, y := Normalize(a, paths).value, Normalize(b, paths).value;
    forall p: Path
      ensures p !in paths ==> (At(x, p) == At(y, p) <==> At(a, p) == At(b, p))
      ensures p in paths && KindOf(At(a, p)) == KindOf(At(b, p)) ==> At(x, p) == At(y, p)
      ensures p in paths && x == y ==> KindOf(At(a, p)) == KindOf(At(b, p))
    {
      MaskAllSeen(a, paths, p);
      MaskAllSeen(b, paths, p);
      if p in paths {
        MarksTellKinds(At(a, p), At(b, p), multiset(paths)[p]);
        if p == UID && x == y {
          UidKindsAgree(a, b, paths);
        }
      }
    }
    hide At;
    hide MaskAll;
    if AgreeElsewhere(a, b, paths) && SameKinds(a, b, paths) {
      SeenIsAll(x, y);
    }
  }

  /** The body with one field at `path` and nothing else. */
  function BodyAt(path: Path, v: Json): Json
    decreases |path|
  {
    if path == [] then v else Obj(map[path[0] := BodyAt(path[1..], v)])
  }

  lemma {:induction false} BodyAtSeen(path: Path, v: Json, p: Path)
    requires !v.Obj?
    ensures At(BodyAt(path, v), p)
         == if p == path then Leaf(v) else if p <= path then Keys({path[|p|]}) else Absent
    decreases |path|
  {
    if p != [] && path != [] {
      assert p == [p[0]] + p[1..] && path == [path[0]] + path[1..];
      if p[0] == path[0] {
        BodyAtSeen(path[1..], v, p[1..]);
      }
    }
  }

  /** Of the allowed paths, none runs inside another. */
  lemma AllowedApart(p: Path, q: Path)
    requires p in ALLOWED && q in ALLOWED && p <= q
    ensures p == q
  {
    AllowedShape(p);
    AllowedShape(q);
    hide *;
    assert forall i :: 0 <= i < |p| ==> p[i] == q[i];
  }

  lemma AllowedShape(p: Path)
    requires p in ALLOWED
    ensures 1 <= |p| <= 3 && (|p| == 1 <==> |p[0]| == 2) && (|p| == 2 ==> |p[1]| < 12) && (|p| == 3 ==> |p[1]| == 21)
  {
  }

  /** A body with a scalar at one listed path can be normalised. */
  lemma BodyAtNormalizes(paths: seq<Path>, path: Path, v: Json)
    requires AllAllowed(paths) && path in ALLOWED && path != UID && (v.Num? || v.Str?)
    ensures Normalize(BodyAt(path, v), paths).Ok?
  {
    var body := BodyAt(path, v);
    forall q | q in paths ensures q in ALLOWED && !KindOf(At(body, q)).Other? {
      BodyAtSeen(path, v, q);
      if q <= path { AllowedApart(q, path); }
    }
    MaskAllSeen(body, paths, []);
    BodyAtSeen(path, v, UID);
    if UID <= path { AllowedApart(UID, path); }
  }

  /** Any other field listed twice hides the difference between a number and a string there. */
  lemma DuplicatesHideTypes(paths: seq<Path>, path: Path)
    requires AllAllowed(paths) && path != UID && multiset(paths)[path] >= 2
    ensures var a, b := BodyAt(path, Num(7.0)), BodyAt(path, Str("7"));
      Normalize(a, paths).Ok? && Normalize(a, paths) == Normalize(b, paths) && !SameKinds(a, b, paths)
  {
    var a, b := BodyAt(path, Num(7.0)), BodyAt(path, Str("7"));
    assert path in multiset(paths) && path in paths;
    BodyAtNormalizes(paths, path, Num(7.0));
    BodyAtNormalizes(paths, path, Str("7"));
    var x, y := Normalize(a, paths).value, Normalize(b, paths).value;
    forall p: Path ensures At(x, p) == At(y, p) {
      MaskAllSeen(a, paths, p);
      MaskAllSeen(b, paths, p);
      BodyAtSeen(path, Num(7.0), p);
      BodyAtSeen(path, Str("7"), p);
      if p == path { MarksTellKinds(At(a, p), At(b, p), multiset(paths)[p]); }
    }
    BodyAtSeen(path, Num(7.0), path);
    BodyAtSeen(path, Str("7"), path);
    hide MaskAll;
    hide At;
    SeenIsAll(x, y);
  }

  /** Comparing under this list sees everything but the values of the listed fields. */
  ghost predicate HidesExactly(paths: seq<Path>) {
    forall a, b :: Normalize(a, paths).Ok? && Normalize(b, paths).Ok? ==>
      (Normalize(a, paths) == Normalize(b, paths) <==> AgreeElsewhere(a, b, paths) && SameKinds(a, b, paths))
  }

  /** It does so exactly for the lists that name no field twice but transactionUid, and for those that
      are refused whatever the body. */
  lemma HidesExactlyWhen(paths: seq<Path>)
    ensures HidesExactly(paths) <==> OnlyUidRepeats(paths) || !AllAllowed(paths)
  {
    if !AllAllowed(paths) {
      forall a ensures Normalize(a, paths).Err? { MaskAllSeen(a, paths, []); }
    } else if OnlyUidRepeats(paths) {
      forall a, b | Normalize(a, paths).Ok? && Normalize(b, paths).Ok?
        ensures Normalize(a, paths) == Normalize(b, paths) <==> AgreeElsewhere(a, b, paths) && SameKinds(a, b, paths)
      {
        NormalizationHidesExactly(a, b, paths);
      }
    } else {
      var path :| path in paths && path != UID && multiset(paths)[path] != 1;
      assert path in multiset(paths);
      DuplicatesHideTypes(paths, path);
    }
  }

  /** The reference number listed once, and listed twice. */
  lemma RrnListedTwice()
    ensures var rrn: Path := ["result", "rrn"]; var a, b := BodyAt(rrn, Num(7.0)), BodyAt(rrn, Str("7"));
      && Normalize(a, [rrn, rrn]).Ok? && Normalize(a, [rrn, rrn]) == Normalize(b, [rrn, rrn])
      && Normalize(a, [rrn]).Ok? && Normalize(b, [rrn]).Ok? && Normalize(a, [rrn]) != Normalize(b, [rrn])
  {
    var rrn: Path := ["result", "rrn"];
    assert rrn in ALLOWED && |rrn| != |UID|;
    DuplicatesHideTypes([rrn, rrn], rrn);
    BodyAtNormalizes([rrn], rrn, Num(7.0));
    BodyAtNormalizes([rrn], rrn, Str("7"));
    BodyAtSeen(rrn, Num(7.0), rrn);
    BodyAtSeen(rrn, Str("7"), rrn);
    assert rrn in [rrn];
    NormalizationHidesExactly(BodyAt(rrn, Num(7.0)), BodyAt(rrn, Str("7")), [rrn]);
  }

  // ---------------------------------------------------------------- mapped identifiers

  const MAPPED: set<Path> := {["result", "terminal"], ["result", "terminal_id"], ["result", "merchant_id"]}

  /** A mapping as it comes; None is a member that is absent or of another type. */
  datatype Mapping = Mapping(paths: Option<seq<Path>>, emulator: Option<string>, reference: Option<string>)
  {
    predicate WellFormed() { paths.Some? && emulator.Some? && reference.Some? }
  }

  /** One field renamed if it holds the emulator's identifier. */
  function Rename(v: Json, path: Path, from: string, to: string): Json
    requires path != []
    decreases |path|
  {
    if !v.Obj? || path[0] !in v.fields then v
    else if |path| > 1 then Obj(v.fields[path[0] := Rename(v.fields[path[0]], path[1..], from, to)])
    else if v.fields[path[0]] == Str(from) then Obj(v.fields[path[0] := Str(to)])
    else v
  }

  function RenamePaths(v: Json, paths: seq<Path>, from: string, to: string): Result<Json, Fault>
    decreases |paths|
  {
    if paths == [] then Ok(v)
    else if paths[0] !in MAPPED then Err(NotAllowed(paths[0]))
    else RenamePaths(Rename(v, paths[0], from, to), paths[1..], from, to)
  }

  function MapAll(v: Json, mappings: seq<Mapping>): Result<Json, Fault>
    decreases |mappings|
  {
    if mappings == [] then Ok(v)
    else
      var m := mappings[0];
      if !m.WellFormed() then Err(InvalidMapping)
      else
        var one := RenamePaths(v, m.paths.value, m.emulator.value, m.reference.value);
        if one.Err? then one else MapAll(one.value, mappings[1..])
  }

  /** The loop over the mappings, and in it the loop over their paths, on a copy. */
  method MapIdentifiers(value: Json, mappings: seq<Mapping>) returns (copy: Result<Json, Fault>)
    ensures copy == MapAll(value, mappings)
  {
    var working := value;
    var i := 0;
    while i < |mappings|
      invariant i <= |mappings| && MapAll(value, mappings) == MapAll(working, mappings[i..])
    {
      var m := mappings[i];
      if !m.WellFormed() { return Err(InvalidMapping); }
      var paths, from, to := m.paths.value, m.emulator.value, m.reference.value;
      ghost var before := working;
      var k := 0;
      while k < |paths|
        invariant k <= |paths| && RenamePaths(before, paths, from, to) == RenamePaths(working, paths[k..], from, to)
      {
        if paths[k] !in MAPPED { return Err(NotAllowed(paths[k])); }
        working := Rename(working, paths[k], from, to);
        k := k + 1;
      }
      i := i + 1;
    }
    copy := Ok(working);
  }

  /** What one path shows after a mapping that lists it. */
  function RenamedBy(s: Sight, p: Path, paths: seq<Path>, from: string, to: string): Sight {
    if p in paths && s == Leaf(Str(from)) then Leaf(Str(to)) else s
  }

  /** The mappings one path goes through, in order. */
  function Renamed(s: Sight, p: Path, mappings: seq<Mapping>): Sight
    requires forall m :: m in mappings ==> m.WellFormed()
    decreases |mappings|
  {
    if mappings == [] then s
    else
      var m := mappings[0];
      assert m in mappings && m.WellFormed();
      Renamed(RenamedBy(s, p, m.paths.value, m.emulator.value, m.reference.value), p, mappings[1..])
  }

  lemma {:induction false} RenameSeen(v: Json, path: Path, from: string, to: string, p: Path)
    requires path != []
    ensures At(Rename(v, path, from, to), p)
         == if p == path && At(v, p) == Leaf(Str(from)) then Leaf(Str(to)) else At(v, p)
    decreases |path|
  {
    if v.Obj? && path[0] in v.fields {
      if |path| > 1 {
        if p != [] && p[0] == path[0] {
          RenameSeen(v.fields[path[0]], path[1..], from, to, p[1..]);
          assert p == path <==> p[1..] == path[1..] by { assert p == [p[0]] + p[1..] && path == [path[0]] + path[1..]; }
        }
      } else {
        AtKey(v, path);
        SetKeySeen(v, Rename(v, path, from, to), path, p);
      }
    }
  }

  /** A path listed twice in one mapping is renamed as if listed once: the new identifier is replaced
      again only where it is the old one. */
  lemma {:induction false} PathsSeen(v: Json, paths: seq<Path>, from: string, to: string, p: Path)
    ensures RenamePaths(v, paths, from, to).Ok? <==> forall q :: q in paths ==> q in MAPPED
    ensures RenamePaths(v, paths, from, to).Ok? ==>
      At(RenamePaths(v, paths, from, to).value, p) == RenamedBy(At(v, p), p, paths, from, to)
    decreases |paths|
  {
    if paths != [] && paths[0] in MAPPED {
      var q, rest := paths[0], paths[1..];
      assert q != [] && paths == [q] + rest;
      RenameSeen(v, q, from, to, p);
      PathsSeen(Rename(v, q, from, to), rest, from, to, p);
    }
  }

  /** Mapping succeeds exactly on well-formed mappings of the three identifier fields; it touches only
      those, and each of them only through the mappings that list it; everything else in the body is
      exactly as it was. */
  lemma {:induction false} RenamingSeen(v: Json, mappings: seq<Mapping>, p: Path)
    ensures MapAll(v, mappings).Ok?
       <==> forall m :: m in mappings ==> m.WellFormed() && forall q :: q in m.paths.value ==> q in MAPPED
    ensures MapAll(v, mappings).Ok? ==> At(MapAll(v, mappings).value, p) == Renamed(At(v, p), p, mappings)
    ensures MapAll(v, mappings).Ok? && p !in MAPPED ==> At(MapAll(v, mappings).value, p) == At(v, p)
    decreases |mappings|
  {
    if mappings != [] && mappings[0].WellFormed() {
      var m, rest := mappings[0], mappings[1..];
      assert mappings == [m] + rest;
      PathsSeen(v, m.paths.value, m.emulator.value, m.reference.value, p);
      var one := RenamePaths(v, m.paths.value, m.emulator.value, m.reference.value);
      if one.Ok? {
        RenamingSeen(one.value, rest, p);
      }
    }
  }
}
