/** The values exchanged between the clients and the server: a stored reading,
    the paging envelope of a list query, and the body of a create request.
    These mirror the Kotlin data classes; the other components share them. */
module Models {

  datatype Option<+T> = None | Some(value: T)
  {
    /** The value, or `default` when there is none (Kotlin's `?:`). */
    function GetOr(default: T): T
    {
      match this
      case Some(v) => v
      case None => default
    }
  }

  function Min(a: int, b: int): int
  {
    if a <= b then a else b
  }

  /** The three status labels every client shows for a reading. */
  const HighLabel: string := "高血压"
  const ElevatedLabel: string := "偏高"
  const NormalLabel: string := "正常"

  /** One blood-pressure reading as the server stores and returns it.
      `pulse` and `name` may be null. */
  datatype Record = Record(
    id: int,
    date: string,
    systolic: int,
    diastolic: int,
    pulse: Option<int>,
    name: Option<string>)

  /** The paging envelope of a list query. */
  datatype Meta = Meta(total: int, page: int, pageSize: int, totalPages: int)

  /** The body of a successful GET /api/records. */
  datatype RecordResponse = RecordResponse(data: seq<Record>, meta: Meta)

  /** The body the Android client posts to create a reading; `date` is an
      optional field the server never reads. */
  datatype CreateRecordRequest = CreateRecordRequest(
    systolic: int,
    diastolic: int,
    pulse: Option<int>,
    name: string,
    date: Option<string>)

  /** `s` without the readings whose id is `id`, order kept.  The server's
      DELETE removes these rows; the web client drops them from its list. */
  function WithoutId(s: seq<Record>, id: int): (r: seq<Record>)
    ensures forall x :: x in r <==> x in s && x.id != id
    ensures |r| <= |s|
    ensures (forall x :: x in s ==> x.id != id) ==> r == s
  {
    if s == [] then []
    else (if s[0].id == id then [] else [s[0]]) + WithoutId(s[1..], id)
  }

  /** Ids strictly increase along `s`: the rows in the order SQLite's
      AUTOINCREMENT handed out their ids. */
  ghost predicate IdsIncreasing(s: seq<Record>)
  {
    forall i, j :: 0 <= i < j < |s| ==> s[i].id < s[j].id
  }

  /** With distinct ids, removing an id that is present shortens the
      sequence by exactly one: only that reading goes. */
  lemma {:induction false} WithoutIdRemovesOne(s: seq<Record>, id: int)
    requires IdsIncreasing(s)
    requires exists x :: x in s && x.id == id
    ensures |WithoutId(s, id)| == |s| - 1
  {
    if s[0].id == id {
      assert forall x :: x in s[1..] ==> x.id != id by {
        forall x | x in s[1..] ensures x.id != id {
          var k :| 0 <= k < |s[1..]| && s[1..][k] == x;
          assert s[0].id < s[k + 1].id;
        }
      }
    } else {
      var x :| x in s && x.id == id;
      assert x in s[1..];
      WithoutIdRemovesOne(s[1..], id);
    }
  }

  /** Removing keeps the ids increasing. */
  lemma {:induction false} WithoutIdKeepsOrder(s: seq<Record>, id: int)
    requires IdsIncreasing(s)
    ensures IdsIncreasing(WithoutId(s, id))
  {
    if s != [] {
      WithoutIdKeepsOrder(s[1..], id);
      var rest := WithoutId(s[1..], id);
      if s[0].id != id {
        forall x | x in rest ensures s[0].id < x.id {
          var k :| 0 <= k < |s[1..]| && s[1..][k] == x;
          assert s[0].id < s[k + 1].id;
        }
        ConsIncreasing(s[0], rest);
      }
    }
  }

  /** A row whose id is below every id of an increasing sequence can go in
      front of it. */
  lemma ConsIncreasing(h: Record, t: seq<Record>)
    requires IdsIncreasing(t)
    requires forall x :: x in t ==> h.id < x.id
    ensures IdsIncreasing([h] + t)
  {
    var r := [h] + t;
    forall i, j | 0 <= i < j < |r| ensures r[i].id < r[j].id {
      assert r[j] == t[j - 1];
      if i > 0 {
        assert r[i] == t[i - 1];
      }
    }
  }
}
