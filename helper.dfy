/**
 * `MergeJSON` (orchestra-svc/pkg/helper.go): each source is encoded to JSON and
 * decoded back into a `map[string]interface{}`; its top-level members are then
 * written into one result map, so a later source overwrites an earlier one on
 * a shared member name. JSON null decodes into a nil map and contributes
 * nothing; any other non-object source makes the merge fail.
 */
module Helper {
  import opened Wrappers
  import opened Json

  /** The error `json.Unmarshal` reports for a non-object source. */
  datatype MergeError = NotAnObject(source: Json)

  /** The members one source contributes to the merge, or why it cannot. */
  function Members(src: Json): Result<Object, MergeError>
  {
    match src
    case JNull => Success(map[])
    case JObject(fields) => Success(fields)
    case _ => Failure(NotAnObject(src))
  }

  /** One iteration of the loop: fold the members of `src` into `acc`. */
  function Absorb(acc: Result<Object, MergeError>, src: Json): Result<Object, MergeError>
  {
    match acc
    case Failure(e) => Failure(e)
    case Success(merged) =>
      match Members(src)
      case Failure(e) => Failure(e)
      case Success(m) => Success(merged + m)
  }

  /** Reference definition: the merge as a left fold over the sources. */
  function MergeAll(sources: seq<Json>): Result<Object, MergeError>
    decreases |sources|
  {
    if sources == [] then Success(map[])
    else Absorb(MergeAll(sources[..|sources| - 1]), sources[|sources| - 1])
  }

  /** Unfolds `MergeAll` on a sequence written as a prefix and a last source. */
  lemma MergeSnoc(p: seq<Json>, x: Json)
    ensures MergeAll(p + [x]) == Absorb(MergeAll(p), x)
  {
    assert (p + [x])[..|p|] == p;
  }

  /** What `MergeJSON` leaves in `dst`: the merged members as one JSON object. */
  function Merged(sources: seq<Json>): Result<Json, MergeError>
  {
    match MergeAll(sources)
    case Success(m) => Success(JObject(m))
    case Failure(e) => Failure(e)
  }

  /** A source the merge accepts. */
  predicate Mergeable(src: Json)
  {
    src.JNull? || src.JObject?
  }

  /** Source `i` has a top-level member named `k`. */
  predicate HasMember(sources: seq<Json>, i: int, k: string)
    requires 0 <= i < |sources|
  {
    sources[i].JObject? && k in sources[i].fields
  }

  /**
   * The loop of helper.go: for every source, decode it into a temporary map
   * and copy that map's members one by one into `merged`.
   */
  method MergeJson(sources: seq<Json>) returns (r: Result<Json, MergeError>)
    ensures r == Merged(sources)
  {
    var merged: Object := map[];
    var i := 0;
    while i < |sources|
      invariant 0 <= i <= |sources|
      invariant MergeAll(sources[..i]) == Success(merged)
      decreases |sources| - i
    {
      assert sources[..i + 1] == sources[..i] + [sources[i]];
      MergeSnoc(sources[..i], sources[i]);
      var temp: Object;
      match sources[i] {
        case JNull =>
          temp := map[];
        case JObject(fields) =>
          temp := fields;
        case _ =>
          MergeSucceedsIff(sources[..i]);
          MergeFailsOnFirstNonObject(sources, i);
          return Failure(NotAnObject(sources[i]));
      }
      merged := CopyMembers(merged, temp);
      i := i + 1;
    }
    assert sources[..i] == sources;
    r := Success(JObject(merged));
  }

  /** The inner loop of helper.go: write every member of `temp` into `merged`. */
  method CopyMembers(merged: Object, temp: Object) returns (out: Object)
    ensures out == merged + temp
  {
    out := merged;
    var pending := temp.Keys;
    while pending != {}
      invariant pending <= temp.Keys
      invariant out.Keys == merged.Keys + (temp.Keys - pending)
      invariant forall k :: k in out ==> out[k] == if k in temp && k !in pending then temp[k] else merged[k]
      decreases pending
    {
      var key :| key in pending;
      out := out[key := temp[key]];
      pending := pending - {key};
    }
    assert out == merged + temp;
  }

  /** The merge succeeds exactly when every source is an object or null. */
  lemma {:induction false} MergeSucceedsIff(sources: seq<Json>)
    ensures MergeAll(sources).Success? <==> forall i :: 0 <= i < |sources| ==> Mergeable(sources[i])
    decreases |sources|
  {
    if sources != [] {
      var p := sources[..|sources| - 1];
      MergeSucceedsIff(p);
      assert forall i :: 0 <= i < |p| ==> p[i] == sources[i];
    }
  }

  /** A failing merge names the first source that is neither an object nor null. */
  lemma {:induction false} MergeFailsOnFirstNonObject(sources: seq<Json>, j: int)
    requires 0 <= j < |sources| && !Mergeable(sources[j])
    requires forall i :: 0 <= i < j ==> Mergeable(sources[i])
    ensures MergeAll(sources) == Failure(NotAnObject(sources[j]))
    decreases |sources|
  {
    var p := sources[..|sources| - 1];
    if j < |sources| - 1 {
      MergeFailsOnFirstNonObject(p, j);
    } else {
      MergeSucceedsIff(p);
    }
  }

  /**
   * Exactly the members of the object sources appear in the result, and each
   * member's value comes from the last source that has it.
   */
  lemma {:induction false} MergeMembers(sources: seq<Json>, k: string)
    requires MergeAll(sources).Success?
    ensures k in MergeAll(sources).value <==> exists i :: 0 <= i < |sources| && HasMember(sources, i, k)
    ensures k in MergeAll(sources).value ==>
              exists i :: 0 <= i < |sources| && HasMember(sources, i, k)
                && MergeAll(sources).value[k] == sources[i].fields[k]
                && forall j :: i < j < |sources| ==> !HasMember(sources, j, k)
    decreases |sources|
  {
    if sources != [] {
      var n := |sources| - 1;
      var p := sources[..n];
      assert forall i :: 0 <= i < n ==> p[i] == sources[i];
      assert sources == p + [sources[n]];
      MergeSnoc(p, sources[n]);
      MergeMembers(p, k);
      var acc := MergeAll(p).value;
      var m := Members(sources[n]).value;
      assert MergeAll(sources).value == acc + m;
      if HasMember(sources, n, k) {
        assert MergeAll(sources).value[k] == sources[n].fields[k];
      } else {
        assert k !in m;
        if k in acc {
          var i :| 0 <= i < n && HasMember(p, i, k) && acc[k] == p[i].fields[k]
                   && forall j :: i < j < n ==> !HasMember(p, j, k);
          assert HasMember(sources, i, k);
          assert MergeAll(sources).value[k] == sources[i].fields[k];
          forall j | i < j < |sources|
            ensures !HasMember(sources, j, k)
          {
            if j < n {
              assert !HasMember(p, j, k);
            }
          }
        }
        if exists i :: 0 <= i < |sources| && HasMember(sources, i, k) {
          var i :| 0 <= i < |sources| && HasMember(sources, i, k);
          assert i < n;
          assert HasMember(p, i, k);
          assert k in acc;
        }
      }
    }
  }

  /** The fold only depends on a prefix through that prefix's merge. */
  lemma {:induction false} MergeCongruence(p: seq<Json>, q: seq<Json>, b: seq<Json>)
    requires MergeAll(p) == MergeAll(q)
    ensures MergeAll(p + b) == MergeAll(q + b)
    decreases |b|
  {
    if b == [] {
      assert p + b == p && q + b == q;
    } else {
      var b', x := b[..|b| - 1], b[|b| - 1];
      MergeCongruence(p, q, b');
      assert p + b == (p + b') + [x];
      assert q + b == (q + b') + [x];
      MergeSnoc(p + b', x);
      MergeSnoc(q + b', x);
    }
  }

  /** A null source, such as an absent cache key, contributes nothing. */
  lemma NullContributesNothing(a: seq<Json>, b: seq<Json>)
    ensures MergeAll(a + [JNull] + b) == MergeAll(a + b)
  {
    MergeSnoc(a, JNull);
    assert MergeAll(a).Success? ==> MergeAll(a).value + map[] == MergeAll(a).value;
    MergeCongruence(a + [JNull], a, b);
  }

  /** Naming the same source twice in a row is the same as naming it once. */
  lemma RepeatedSourceIsIdempotent(a: seq<Json>, x: Json, b: seq<Json>)
    ensures MergeAll(a + [x, x] + b) == MergeAll(a + [x] + b)
  {
    assert a + [x, x] == (a + [x]) + [x];
    MergeSnoc(a, x);
    MergeSnoc(a + [x], x);
    match MergeAll(a) {
      case Failure(_) =>
      case Success(acc) =>
        match Members(x) {
          case Failure(_) =>
          case Success(m) => assert acc + m + m == acc + m;
        }
    }
    MergeCongruence(a + [x, x], a + [x], b);
  }

  /** With no sources the result is `{}`; one object merges to itself. */
  lemma MergeBaseCases(fields: Object)
    ensures Merged([]) == Success(JObject(map[]))
    ensures Merged([JObject(fields)]) == Success(JObject(fields))
  {
    MergeSnoc([], JObject(fields));
    assert [] + [JObject(fields)] == [JObject(fields)];
    assert map[] + fields == fields;
  }
}
