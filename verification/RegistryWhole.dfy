/**
 The registry file with whole seconds: a number format, character tables and listings that meet what the round trip
 asks for, and so the round trip of every registry whose times are whole seconds.
 */
module RegistryWhole {
  import opened Rooms
  import opened Texts
  import opened RegistryText
  import opened RegistryLines
  import opened RegistryFile

  // ----- decimal digits ---------------------------------------------------------------------

  function Decimal(n: nat): string {
    (if n < 10 then "" else Decimal(n / 10)) + [Digit(n % 10)]
  }

  function DecimalValue(s: string): nat {
    if s == "" then 0
    else
      var hi, lo := DecimalValue(s[..|s| - 1]), DigitValue(s[|s| - 1]);
      10 * hi + if lo.Some? then lo.value else 0
  }

  lemma OneMore(s: string, d: nat)
    requires d < 10 && (s == "" || FloatText(s))
    ensures FloatText(s + [Digit(d)]) && DecimalValue(s + [Digit(d)]) == 10 * DecimalValue(s) + d
  {
    var t := s + [Digit(d)];
    DigitBack(d);
    assert t[..|t| - 1] == s && t[|t| - 1] == Digit(d);
  }

  lemma {:induction false} DecimalBack(n: nat)
    ensures FloatText(Decimal(n)) && DecimalValue(Decimal(n)) == n
  {
    if n < 10 {
      OneMore("", n);
    } else {
      DecimalBack(n / 10);
      OneMore(Decimal(n / 10), n % 10);
    }
  }

  predicate Whole(x: real) {
    x == x.Floor as real
  }

  /** Whole numbers, written in decimal. */
  const WHOLE := Floats((x: real) => if x >= 0.0 then Decimal(x.Floor) else "0", s => DecimalValue(s) as real, Whole)

  lemma WholeOk()
    ensures FloatsOk(WHOLE)
  {
    forall x: real | Positive(WHOLE, x) ensures FloatText(WHOLE.show(x)) && WHOLE.read(WHOLE.show(x)) == x {
      DecimalBack(x.Floor);
    }
  }

  // ----- plain characters -------------------------------------------------------------------

  function LowerAscii(c: char): char {
    if 'A' <= c <= 'Z' then c - 'A' + 'a' else c
  }

  /** Only ASCII is printable, white space or a letter with a lower-case form. */
  const ASCII := Tables(c => ' ' <= c <= '~', AsciiSpace, LowerAscii)

  lemma AsciiOk()
    ensures TablesOk(ASCII)
  {
  }

  // ----- every registry can be listed -------------------------------------------------------------

  lemma {:induction false} ListOf<T(!new)>(s: set<T>) returns (list: seq<T>)
    ensures (forall x :: x in list <==> x in s) && |list| == |s|
    decreases s
  {
    list := [];
    if s != {} {
      var x :| x in s;
      var rest := ListOf(s - {x});
      list := rest + [x];
    }
  }

  /** Every time to be written is a number of the program. */
  predicate TimesExact(f: Floats, st: RoomState, written: real) {
    && (st.lastUsed > 0.0 ==> f.exact(st.lastUsed))
    && forall id :: id in st.invited && st.invited[id] > written ==> f.exact(st.invited[id])
  }

  lemma RoomListed(f: Floats, name: Text, st: RoomState, written: real) returns (l: Listing)
    requires st.registered && TimesExact(f, st, written) && written >= 0.0
    ensures l.name == name && l.st == st && ListingOk(f, l, written) && InvitesKnown(l)
  {
    var ops := ListOf(st.ops);
    var voiced := ListOf(st.voiced);
    var bans := ListOf(st.bans);
    var invites := ListOf(Live(st.invited, written));
    l := Listing(name, st, ops, voiced, bans, invites);
    forall i | 0 <= i < |invites| ensures invites[i] in st.invited && Positive(f, st.invited[invites[i]]) {
      assert invites[i] in Live(st.invited, written);
    }
  }

  lemma {:induction false} NamesListed(f: Floats, reg: Registry, names: seq<Text>, written: real)
    returns (ls: seq<Listing>)
    requires written >= 0.0
    requires forall i :: 0 <= i < |names| ==>
               names[i] in reg && reg[names[i]].registered && TimesExact(f, reg[names[i]], written)
    ensures |ls| == |names| && Writable(ls)
    ensures forall i :: 0 <= i < |ls| ==>
              ls[i].name == names[i] && ls[i].st == reg[names[i]] && ListingOk(f, ls[i], written)
    decreases |names|
  {
    ls := [];
    if names != [] {
      var n := |names| - 1;
      var init := NamesListed(f, reg, names[..n], written);
      var last := RoomListed(f, names[n], reg[names[n]], written);
      ls := init + [last];
    }
  }

  lemma {:induction false} AtMost(list: seq<Text>, s: set<Text>)
    requires forall x :: x in s ==> x in list
    ensures |s| <= |list|
    decreases |list|
  {
    if list == [] {
      assert s == {};
    } else {
      var x, rest := list[0], s - {list[0]};
      forall y | y in rest ensures y in list[1..] { assert y in list; }
      AtMost(list[1..], rest);
      assert s <= rest + {x};
      assert |s| <= |rest + {x}| <= |rest| + 1 by {
        if x in s { assert s == rest + {x}; } else { assert s == rest; }
      }
    }
  }

  lemma DistinctList(names: seq<Text>, s: set<Text>)
    requires (forall x :: x in names <==> x in s) && |names| == |s|
    ensures forall i, j :: 0 <= i < j < |names| ==> names[i] != names[j]
  {
    forall i, j | 0 <= i < j < |names| ensures names[i] != names[j] {
      if names[i] == names[j] {
        var fewer := names[..j] + names[j + 1..];
        assert forall x :: x in names ==> x in fewer by {
          forall x | x in names ensures x in fewer {
            var k :| 0 <= k < |names| && names[k] == x;
            assert x == if k == j then fewer[i] else if k < j then fewer[k] else fewer[k - 1];
          }
        }
        AtMost(fewer, s);
      }
    }
  }

  /** Every registry whose times are numbers of the program has a listing. */
  lemma RegistryListed(f: Floats, reg: Registry, written: real) returns (ls: seq<Listing>)
    requires written >= 0.0 && forall name :: name in reg && reg[name].registered ==> TimesExact(f, reg[name], written)
    ensures Lists(f, reg, ls, written) && Writable(ls)
  {
    var registered := set name | name in reg && reg[name].registered;
    var names := ListOf(registered);
    DistinctList(names, registered);
    forall i | 0 <= i < |names| ensures names[i] in reg && reg[names[i]].registered { assert names[i] in registered; }
    ls := NamesListed(f, reg, names, written);
    forall name | name in reg && reg[name].registered ensures exists i :: 0 <= i < |ls| && ls[i].name == name {
      assert name in registered && name in names;
      var i :| 0 <= i < |names| && names[i] == name;
      assert ls[i].name == name;
    }
  }

  /**
   A registry whose times are whole seconds can be written, and reading that text gives back exactly its registered
   rooms, provided no room that has anything to lose is registered under the empty name.
   */
  lemma WholeSecondsRoundTrip(reg: Registry, written: real, now: real) returns (ls: seq<Listing>)
    requires 0.0 <= written <= now
    requires forall name :: name in reg && reg[name].registered ==> TimesExact(WHOLE, reg[name], written)
    ensures Lists(WHOLE, reg, ls, written) && Writable(ls)
    ensures ParseText(ASCII, ReaderAt(ASCII, WHOLE, now), WriteText(ASCII, WHOLE, ls)) == Loaded(Saved(reg), now) <==>
            NothingUnderNoName(reg, now)
  {
    WholeOk();
    AsciiOk();
    ls := RegistryListed(WHOLE, reg, written);
    RegistryRoundTrip(ASCII, WHOLE, reg, ls, written, now);
  }
}
