/** The Settings.Secure value ENABLED_NOTIFICATION_LISTENERS: flattened component
    names separated by ':'. Parsing follows Java's String.split(":") exactly;
    formatting iterates an ArraySet, whose order is not known, so the formatted
    string is specified only up to the order of its entries. */
module ListenerSetting {
  import opened Options
  import opened Components

  /** Every piece of s between ':' separators, empty pieces included:
      "a::b:" has the four pieces "a", "", "b", "". */
  function Pieces(s: string): (r: seq<string>)
    ensures |r| > 0
    decreases |s|
  {
    if s == [] then [""]
    else
      var rest := Pieces(s[1..]);
      if s[0] == ':' then [""] + rest
      else [[s[0]] + rest[0]] + rest[1..]
  }

  /** xs without its trailing empty strings. */
  function DropTrailingEmpty(xs: seq<string>): (r: seq<string>)
    ensures r <= xs
    ensures r == [] || r[|r| - 1] != ""
    ensures forall i :: |r| <= i < |xs| ==> xs[i] == ""
  {
    if |xs| > 0 && xs[|xs| - 1] == "" then DropTrailingEmpty(xs[..|xs| - 1]) else xs
  }

  /** Java's s.split(":"): a string without ':' splits into itself (so "" gives
      [""]); otherwise the pieces, with the trailing empty ones removed. */
  function Split(s: string): seq<string>
  {
    if ':' !in s then [s] else DropTrailingEmpty(Pieces(s))
  }

  /** The entries joined with ':' between them. */
  function Join(xs: seq<string>): string
  {
    if |xs| == 0 then ""
    else if |xs| == 1 then xs[0]
    else xs[0] + ":" + Join(xs[1..])
  }

  /** What getCurrentNotifListeners collects: nothing for an absent setting,
      otherwise every piece of its split. */
  function ListenerSet(flat: Option<string>): set<string>
  {
    match flat
    case None => {}
    case Some(s) => set x | x in Split(s)
  }

  /** The listener entries a setting names, ignoring empty pieces. */
  function Entries(flat: Option<string>): set<string>
  {
    ListenerSet(flat) - {""}
  }

  /** r is what formatSettings may return for c: "" for an absent collection,
      otherwise the ':'-join of the non-empty entries of c, each once, in some order. */
  ghost predicate IsFormatting(c: Option<set<string>>, r: string)
  {
    match c
    case None => r == ""
    case Some(s) => exists order: seq<string> :: ListsOnce(order, s - {""}) && r == Join(order)
  }

  /** order lists the elements of s, each exactly once. */
  predicate ListsOnce(order: seq<string>, s: set<string>)
  {
    && (forall i, j :: 0 <= i < j < |order| ==> order[i] != order[j])
    && (forall x :: x in order ==> x in s)
    && (forall x :: x in s ==> x in order)
  }

  lemma {:induction false} PiecesColonFree(s: string)
    ensures forall i :: 0 <= i < |Pieces(s)| ==> ':' !in Pieces(s)[i]
    decreases |s|
  {
    if s != [] {
      PiecesColonFree(s[1..]);
      var rest := Pieces(s[1..]);
      if s[0] != ':' {
        assert ':' !in [s[0]] + rest[0];
      }
    }
  }

  /** No entry of a split holds a ':'. */
  lemma SplitColonFree(s: string)
    ensures forall i :: 0 <= i < |Split(s)| ==> ':' !in Split(s)[i]
  {
    PiecesColonFree(s);
  }

  /** No element of a parsed setting holds a ':'. */
  lemma ListenerSetColonFree(flat: Option<string>)
    ensures forall x :: x in ListenerSet(flat) ==> ':' !in x
  {
    if flat.Some? {
      SplitColonFree(flat.value);
    }
  }

  lemma {:induction false} PiecesOfName(a: string)
    requires ':' !in a
    ensures Pieces(a) == [a]
    decreases |a|
  {
    if a != [] {
      PiecesOfName(a[1..]);
      assert [a[0]] + a[1..] == a;
    }
  }

  lemma {:induction false} PiecesAfterName(a: string, b: string)
    requires ':' !in a
    ensures Pieces(a + ":" + b) == [a] + Pieces(b)
    decreases |a|
  {
    if a == [] {
      assert a + ":" + b == [':'] + b;
      assert (a + ":" + b)[1..] == b;
    } else {
      var s := a + ":" + b;
      assert s[1..] == a[1..] + ":" + b;
      PiecesAfterName(a[1..], b);
      assert [s[0]] + a[1..] == a;
    }
  }

  /** Splitting the pieces of a join gives back the entries, when none holds a ':'. */
  lemma {:induction false} PiecesOfJoin(xs: seq<string>)
    requires |xs| > 0
    requires forall i :: 0 <= i < |xs| ==> ':' !in xs[i]
    ensures Pieces(Join(xs)) == xs
    decreases |xs|
  {
    if |xs| == 1 {
      PiecesOfName(xs[0]);
    } else {
      PiecesOfJoin(xs[1..]);
      PiecesAfterName(xs[0], Join(xs[1..]));
      assert [xs[0]] + xs[1..] == xs;
    }
  }

  /** Round trip: Java's split undoes the ':'-join of non-empty, ':'-free entries. */
  lemma SplitOfJoin(xs: seq<string>)
    requires |xs| > 0
    requires forall i :: 0 <= i < |xs| ==> xs[i] != "" && ':' !in xs[i]
    ensures Split(Join(xs)) == xs
  {
    if |xs| == 1 {
      assert Join(xs) == xs[0];
    } else {
      PiecesOfJoin(xs);
      var j := Join(xs);
      assert j == xs[0] + ":" + Join(xs[1..]);
      assert j[|xs[0]|] == ':';
      assert ':' in j;
      assert DropTrailingEmpty(xs) == xs;
    }
  }

  /** Parsing a formatted collection of ':'-free entries gives back its non-empty entries. */
  lemma EntriesOfFormatting(c: set<string>, r: string)
    requires IsFormatting(Some(c), r)
    requires forall x :: x in c ==> ':' !in x
    ensures Entries(Some(r)) == c - {""}
  {
    var order :| ListsOnce(order, c - {""}) && r == Join(order);
    if order == [] {
      assert Split(r) == [""];
      assert ListenerSet(Some(r)) == {""};
    } else {
      forall i | 0 <= i < |order| ensures order[i] != "" && ':' !in order[i] {
        assert order[i] in order;
      }
      SplitOfJoin(order);
      assert ListenerSet(Some(r)) == set x | x in order;
    }
  }

  lemma {:induction false} JoinSnoc(xs: seq<string>, s: string)
    requires |xs| > 0
    ensures Join(xs + [s]) == Join(xs) + ":" + s
    decreases |xs|
  {
    var ys := xs + [s];
    assert ys[0] == xs[0] && ys[1..] == xs[1..] + [s];
    if |xs| == 1 {
      assert ys[1..] == [s];
      assert Join(ys) == xs[0] + ":" + Join([s]);
    } else {
      JoinSnoc(xs[1..], s);
      assert Join(ys) == xs[0] + ":" + Join(xs[1..] + [s]);
    }
  }

  /** formatSettings (VrManagerService.java): "" for an absent or empty collection,
      otherwise the non-empty entries joined with ':' in the collection's iteration
      order, which the model leaves open. */
  method FormatSettings(c: Option<set<string>>) returns (r: string)
    ensures IsFormatting(c, r)
  {
    if c.None? || c.value == {} {
      r := "";
      if c.Some? {
        var none: seq<string> := [];
        assert ListsOnce(none, c.value - {""}) && r == Join(none);
      }
      return;
    }
    var rest := c.value;
    var b := "";
    var start := true;
    ghost var order: seq<string> := [];
    while rest != {}
      invariant rest <= c.value
      invariant ListsOnce(order, (c.value - rest) - {""})
      invariant b == Join(order)
      invariant start <==> order == []
      decreases rest
    {
      var s :| s in rest;
      ghost var done := c.value - rest;
      rest := rest - {s};
      assert c.value - rest == done + {s};
      if s != "" {
        assert s !in order;
        if !start {
          b := b + ":";
          JoinSnoc(order, s);
        }
        b := b + s;
        start := false;
        order := order + [s];
      }
    }
    assert c.value - rest == c.value;
    r := b;
  }
}
