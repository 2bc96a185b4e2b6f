/**
 * Searching the store: `Array.prototype.findIndex` followed by indexing, as
 * both the GraphQL `booking` resolver and the REST `/reservations/:id`
 * handler do it.
 */
module Lookup {
  import opened Wrappers
  import opened Bookings
  import Decimal

  /** `s.findIndex(p)`: the smallest index whose element satisfies `p`, or -1. */
  function FindIndex<T>(s: seq<T>, p: T -> bool): (k: int)
    ensures -1 <= k < |s|
    ensures 0 <= k ==> p(s[k]) && forall j :: 0 <= j < k ==> !p(s[j])
    ensures k == -1 <==> forall j :: 0 <= j < |s| ==> !p(s[j])
  {
    if |s| == 0 then -1
    else if p(s[0]) then 0
    else
      var k := FindIndex(s[1..], p);
      if k == -1 then -1 else k + 1
  }

  /** `s[k]`, which is `undefined` for an index outside the array, -1 included. */
  function At<T>(s: seq<T>, k: int): Option<T> {
    if 0 <= k < |s| then Some(s[k]) else None
  }

  /** GraphQL `booking`: the first record whose `_id` equals `id`. */
  function ById(db: seq<Booking>, id: int): (r: Option<Booking>)
    ensures r.None? <==> forall j :: 0 <= j < |db| ==> db[j].id != id
    ensures r.Some? ==> exists k ::
      && 0 <= k < |db| && db[k] == r.value && db[k].id == id
      && forall j :: 0 <= j < k ==> db[j].id != id
  {
    At(db, FindIndex(db, (b: Booking) => b.id == id))
  }

  /** REST `/reservations/:id`: the first record whose `_id.toString()` equals `text`. */
  function ByIdText(db: seq<Booking>, text: string): (r: Option<Booking>)
    ensures r.None? <==> forall j :: 0 <= j < |db| ==> Decimal.Render(db[j].id) != text
    ensures r.Some? ==> exists k ::
      && 0 <= k < |db| && db[k] == r.value && Decimal.Render(db[k].id) == text
      && forall j :: 0 <= j < k ==> Decimal.Render(db[j].id) != text
  {
    At(db, FindIndex(db, (b: Booking) => Decimal.Render(b.id) == text))
  }

  /** Two predicates that agree on every element find the same index. */
  lemma {:induction false} FindIndexAgree<T>(s: seq<T>, p: T -> bool, q: T -> bool)
    requires forall j :: 0 <= j < |s| ==> p(s[j]) == q(s[j])
    ensures FindIndex(s, p) == FindIndex(s, q)
  {
    if |s| > 0 {
      FindIndexAgree(s[1..], p, q);
    }
  }

  /** Searching after an append finds an earlier match first, else the new element. */
  lemma {:induction false} FindIndexAppend<T>(s: seq<T>, x: T, p: T -> bool)
    ensures FindIndex(s + [x], p) ==
      if FindIndex(s, p) >= 0 then FindIndex(s, p) else if p(x) then |s| else -1
  {
    if |s| == 0 {
      assert s + [x] == [x];
    } else {
      assert (s + [x])[1..] == s[1..] + [x];
      FindIndexAppend(s[1..], x, p);
    }
  }

  /**
   * The REST lookup is the GraphQL lookup of the integer the path spells in
   * canonical decimal; a path that is no integer's rendering ("01", "+1",
   * "-0", "1.0", "") finds nothing.
   */
  lemma ByIdTextIsById(db: seq<Booking>, text: string)
    ensures ByIdText(db, text) == match Decimal.Parse(text)
      case Some(n) => ById(db, n)
      case None => None
  {
    match Decimal.Parse(text)
    case Some(n) =>
      forall j | 0 <= j < |db|
        ensures Decimal.Render(db[j].id) == text <==> db[j].id == n
      {
        Decimal.RenderIff(db[j].id, text);
        Decimal.RenderInjective(db[j].id, n);
      }
      FindIndexAgree(db, (b: Booking) => Decimal.Render(b.id) == text, (b: Booking) => b.id == n);
    case None =>
      forall j | 0 <= j < |db|
        ensures Decimal.Render(db[j].id) != text
      {
        Decimal.RenderIff(db[j].id, text);
      }
  }

  /** "01" is not the rendering of 1, so it finds no record in any store. */
  lemma LeadingZeroFindsNothing(db: seq<Booking>)
    ensures ByIdText(db, "01") == None
  {
    ByIdTextIsById(db, "01");
  }

  /** GraphQL lookup after appending `b`: an earlier record with the id wins. */
  lemma ByIdAppend(db: seq<Booking>, b: Booking, id: int)
    ensures ById(db + [b], id) ==
      if ById(db, id).Some? then ById(db, id) else if b.id == id then Some(b) else None
  {
    FindIndexAppend(db, b, (x: Booking) => x.id == id);
  }

  /** Every record's id is its position plus one: what sequential creates from an empty store give. */
  predicate SequentialIds(db: seq<Booking>) {
    forall i :: 0 <= i < |db| ==> db[i].id == i + 1
  }

  /** Appending a record whose id is the old length plus one keeps ids sequential. */
  lemma AppendKeepsSequential(db: seq<Booking>, b: Booking)
    requires SequentialIds(db) && b.id == |db| + 1
    ensures SequentialIds(db + [b])
  {
  }

  /** In a store with sequential ids, id `k` is the `k`-th record and every other id is absent. */
  lemma SequentialById(db: seq<Booking>, id: int)
    requires SequentialIds(db)
    ensures ById(db, id) == if 1 <= id <= |db| then Some(db[id - 1]) else None
  {
    if 1 <= id <= |db| {
      assert db[id - 1].id == id;
    }
  }

  /** In a store with sequential ids, the REST lookup finds record `k` under the path `k.toString()`. */
  lemma SequentialByIdText(db: seq<Booking>, id: int)
    requires SequentialIds(db)
    ensures ByIdText(db, Decimal.Render(id)) == if 1 <= id <= |db| then Some(db[id - 1]) else None
  {
    Decimal.ParseRender(id);
    ByIdTextIsById(db, Decimal.Render(id));
    SequentialById(db, id);
  }
}
