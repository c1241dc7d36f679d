/** The comparison value of an order line as the text that is really compared: ids and quantity joined with separators. */
module SignatureText {
  import Replay
  import Sorting

  function Joined(ids: seq<string>): string {
    if ids == [] then "" else if |ids| == 1 then ids[0] else ids[0] + "," + Joined(ids[1..])
  }

  function Text(product: string, quantity: string, ids: seq<string>): string {
    product + ":" + quantity + ":" + Joined(ids)
  }

  /** As UUIDs and decimal numbers are. */
  predicate Plain(s: string) { s != "" && ':' !in s && ',' !in s }

  predicate AllPlain(ids: seq<string>) { forall i :: 0 <= i < |ids| ==> Plain(ids[i]) }

  /** The first separator tells where the first part ends. */
  lemma {:induction false} FirstSeparator(c: char, a: string, x: string, b: string, y: string)
    requires a + [c] + x == b + [c] + y && c !in a && c !in b
    ensures a == b && x == y
    decreases |a|
  {
    var s, t := a + [c] + x, b + [c] + y;
    if a == [] || b == [] {
      assert s[0] == t[0];
      assert a == [] && b == [];
      assert s[1..] == x && t[1..] == y;
    } else {
      assert s[0] == a[0] && t[0] == b[0];
      assert s[1..] == a[1..] + [c] + x && t[1..] == b[1..] + [c] + y;
      FirstSeparator(c, a[1..], x, b[1..], y);
      assert a == [a[0]] + a[1..] && b == [b[0]] + b[1..];
    }
  }

  lemma {:induction false} JoinedIsFaithful(a: seq<string>, b: seq<string>)
    requires AllPlain(a) && AllPlain(b) && Joined(a) == Joined(b)
    ensures a == b
    decreases |a|
  {
    if |a| >= 2 && |b| >= 2 {
      FirstSeparator(',', a[0], Joined(a[1..]), b[0], Joined(b[1..]));
      JoinedIsFaithful(a[1..], b[1..]);
      assert a == [a[0]] + a[1..] && b == [b[0]] + b[1..];
    } else if |a| >= 2 {
      SeparatorInside(a);
    } else if |b| >= 2 {
      SeparatorInside(b);
    } else {
      assert a != [] ==> a == [a[0]];
      assert b != [] ==> b == [b[0]];
    }
  }

  lemma SeparatorInside(ids: seq<string>)
    requires |ids| >= 2
    ensures ',' in Joined(ids)
  {
    assert Joined(ids)[|ids[0]|] == ',';
  }

  /** Two texts agree exactly for the same product, quantity and list of ids. */
  lemma TextIsFaithful(p: string, q: string, a: seq<string>, p': string, q': string, b: seq<string>)
    requires Plain(p) && Plain(q) && AllPlain(a) && Plain(p') && Plain(q') && AllPlain(b)
    ensures Text(p, q, a) == Text(p', q', b) <==> p == p' && q == q' && a == b
  {
    if Text(p, q, a) == Text(p', q', b) {
      assert Text(p, q, a) == p + [':'] + (q + [':'] + Joined(a));
      assert Text(p', q', b) == p' + [':'] + (q' + [':'] + Joined(b));
      FirstSeparator(':', p, q + [':'] + Joined(a), p', q' + [':'] + Joined(b));
      FirstSeparator(':', q, Joined(a), q', Joined(b));
      JoinedIsFaithful(a, b);
    }
  }

  /** Why plain ids matter: an id with a comma in it reads like two. */
  lemma SeparatorsInIdsCollide(p: string, q: string)
    ensures Text(p, q, ["1,2"]) == Text(p, q, ["1", "2"])
  {
    assert ["1", "2"][1..] == ["2"];
    assert Joined(["1", "2"]) == "1" + "," + Joined(["2"]);
  }

  ghost predicate Names(name: nat -> string) {
    (forall n :: Plain(name(n))) && forall m, n :: name(m) == name(n) ==> m == n
  }

  /** The ids of a line, written out and sorted as texts. */
  function Sorted(name: nat -> string, le: (string, string) -> bool, ids: seq<nat>): seq<string> {
    Sorting.Sort(Sorting.Image(name, ids), le)
  }

  lemma SortedIsPlain(name: nat -> string, le: (string, string) -> bool, ids: seq<nat>)
    requires Names(name) && Sorting.IsOrder(le)
    ensures AllPlain(Sorted(name, le, ids))
  {
    var texts, sorted := Sorting.Image(name, ids), Sorted(name, le, ids);
    Sorting.SortSorts(texts, le);
    forall i | 0 <= i < |sorted| ensures Plain(sorted[i]) {
      assert sorted[i] in multiset(texts);
    }
  }

  lemma SameNamesSameIds(name: nat -> string, a: seq<nat>, b: seq<nat>)
    requires Names(name)
    ensures multiset(Sorting.Image(name, a)) == multiset(Sorting.Image(name, b)) <==> multiset(a) == multiset(b)
  {
    var self := (n: nat) => n;
    assert Sorting.Image(self, a) == a && Sorting.Image(self, b) == b;
    if multiset(a) == multiset(b) { Sorting.ImagesMoveTogether(self, name, a, b); }
    if multiset(Sorting.Image(name, a)) == multiset(Sorting.Image(name, b)) { Sorting.ImagesMoveTogether(name, self, a, b); }
  }

  /** However ids and quantities are written, as long as they are plain: two lines have the same text
      exactly when they have the same comparison value in the model. */
  lemma TextsAgreeAsSignatures(name: nat -> string, digits: nat -> string, le: (string, string) -> bool,
                               p: nat, q: nat, a: seq<nat>, p': nat, q': nat, b: seq<nat>)
    requires Names(name) && Names(digits)
    requires Sorting.IsOrder(le) && forall s, t :: le(s, t) && le(t, s) ==> s == t
    ensures Text(name(p), digits(q), Sorted(name, le, a)) == Text(name(p'), digits(q'), Sorted(name, le, b))
            <==> Replay.Signature(p, q, a) == Replay.Signature(p', q', b)
  {
    SortedIsPlain(name, le, a);
    SortedIsPlain(name, le, b);
    TextIsFaithful(name(p), digits(q), Sorted(name, le, a), name(p'), digits(q'), Sorted(name, le, b));
    Replay.SignatureIsFaithful(p, q, a, p', q', b);
    SameNamesSameIds(name, a, b);
    var x, y := Sorting.Image(name, a), Sorting.Image(name, b);
    if multiset(x) == multiset(y) { Sorting.SortForgetsOrder(x, y, le); }
    if Sorting.Sort(x, le) == Sorting.Sort(y, le) { Sorting.SortSameMeansSameElements(x, y, le); }
  }
}
