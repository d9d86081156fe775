/** Enumerations with a table of values and names: parsing, printing and stepping. */
module EnumText {
  import opened Basics

  /** The value that stands for "undefined". */
  const NPOS: int := 0x7fff_ffff

  datatype Item = Item(value: int, name: string)

  // ---------- letter case ----------

  function ToLower(c: char): char {
    if 'A' <= c <= 'Z' then (c as int + 32) as char else c
  }

  predicate IsSpace(c: char) {
    c as int == 32 || 9 <= c as int <= 13
  }

  const UPPER: string := "ABCDEFGHIJKLMNOPQRSTUVWXYZ"

  const LOWER: string := "abcdefghijklmnopqrstuvwxyz"

  const BLANKS: string := [' ', '\t', '\n', '\U{00000B}', '\U{00000C}', '\r']

  /** The same character, or the same letter in the other case. */
  predicate SameLetter(c: char, d: char) {
    c == d || exists n :: 0 <= n < 26 && ((c == UPPER[n] && d == LOWER[n]) || (c == LOWER[n] && d == UPPER[n]))
  }

  lemma LetterCase(c: char, d: char)
    ensures ToLower(c) == ToLower(d) <==> SameLetter(c, d)
  {
    forall n | 0 <= n < 26
      ensures UPPER[n] as int == 65 + n && LOWER[n] as int == 97 + n
    {
    }
    if ToLower(c) == ToLower(d) && c != d {
      var n := ToLower(c) as int - 97;
      assert 0 <= n < 26;
      assert (c == UPPER[n] && d == LOWER[n]) || (c == LOWER[n] && d == UPPER[n]);
    }
  }

  lemma BlanksAre(c: char)
    ensures IsSpace(c) <==> c in BLANKS
  {
  }

  /** Equal up to letter case. */
  ghost predicate Same(a: string, b: string) {
    |a| == |b| && forall i :: 0 <= i < |a| ==> ToLower(a[i]) == ToLower(b[i])
  }

  /** Equal length, and letter by letter the same up to case. */
  ghost predicate SameLetters(a: string, b: string) {
    |a| == |b| && forall i :: 0 <= i < |a| ==> SameLetter(a[i], b[i])
  }

  lemma SameByLetters(a: string, b: string)
    ensures Same(a, b) <==> SameLetters(a, b)
  {
    forall i | 0 <= i < |a| && |a| == |b|
      ensures ToLower(a[i]) == ToLower(b[i]) <==> SameLetter(a[i], b[i])
    {
      LetterCase(a[i], b[i]);
    }
  }

  method EqualIgnoreCase(left: string, right: string) returns (r: bool)
    ensures r <==> SameLetters(left, right)
    ensures r <==> Same(left, right)
  {
    SameByLetters(left, right);
    hide SameLetters;
    if |left| != |right| { return false; }
    var i := 0;
    while i < |left|
      invariant 0 <= i <= |left|
      invariant forall j :: 0 <= j < i ==> ToLower(left[j]) == ToLower(right[j])
    {
      if ToLower(left[i]) != ToLower(right[i]) { return false; }
      i := i + 1;
    }
    r := true;
  }

  // ---------- the table ----------

  ghost predicate Names(table: seq<Item>, w: string) {
    exists k :: 0 <= k < |table| && Same(table[k].name, w)
  }

  ghost predicate FirstNamed(table: seq<Item>, w: string, k: int) {
    0 <= k < |table| && Same(table[k].name, w) && forall j :: 0 <= j < k ==> !Same(table[j].name, w)
  }

  method IndexString(table: seq<Item>, w: string) returns (r: int)
    ensures if Names(table, w) then FirstNamed(table, w, r) else r == -1
  {
    var i := 0;
    while i < |table|
      invariant 0 <= i <= |table|
      invariant forall j :: 0 <= j < i ==> !Same(table[j].name, w)
    {
      var eq := EqualIgnoreCase(table[i].name, w);
      if eq { return i; }
      i := i + 1;
    }
    r := -1;
  }

  function Position(table: seq<Item>, v: int): (r: int)
    ensures -1 <= r < |table|
    ensures r >= 0 ==> table[r].value == v && forall j :: 0 <= j < r ==> table[j].value != v
    ensures r == -1 ==> forall j :: 0 <= j < |table| ==> table[j].value != v
  {
    if table == [] then -1
    else if table[0].value == v then 0
    else
      var p := Position(table[1..], v);
      assert forall j :: 0 < j < |table| ==> table[j] == table[1..][j - 1];
      if p == -1 then -1 else p + 1
  }

  method IndexEnum(table: seq<Item>, v: int) returns (r: int)
    ensures r == Position(table, v)
  {
    var i := 0;
    while i < |table|
      invariant 0 <= i <= |table|
      invariant forall j :: 0 <= j < i ==> table[j].value != v
    {
      if table[i].value == v { return i; }
      i := i + 1;
    }
    r := -1;
  }

  /** What is printed: the name of the first item with that value, nothing for an undefined one. */
  method ToStdString(table: seq<Item>, v: int) returns (s: string)
    ensures s == Printed(table, v)
    ensures (forall k :: 0 <= k < |table| ==> table[k].value != v) ==> s == ""
    ensures forall k :: 0 <= k < |table| && table[k].value == v && (forall j :: 0 <= j < k ==> table[j].value != v) ==>
              s == table[k].name
  {
    var k := IndexEnum(table, v);
    s := if k == -1 then "" else table[k].name;
  }

  function Printed(table: seq<Item>, v: int): string {
    var k := Position(table, v);
    if k == -1 then "" else table[k].name
  }

  // ---------- parsing ----------

  class InStream {
    const text: string
    var pos: nat
    var eof: bool
    var fail: bool

    constructor (text: string)
      ensures this.text == text && pos == 0 && !eof && !fail
    {
      this.text, pos, eof, fail := text, 0, false, false;
    }

    predicate Good()
      reads this
    {
      !eof && !fail
    }

    /** The next character, or None at the end. */
    method Bump() returns (c: Option<char>)
      requires pos <= |text|
      modifies this`pos
      ensures old(pos) < |text| ==> c == Some(text[old(pos)]) && pos == old(pos) + 1
      ensures old(pos) >= |text| ==> c == None && pos == old(pos)
    {
      if pos < |text| {
        c := Some(text[pos]);
        pos := pos + 1;
      } else {
        c := None;
      }
    }
  }

  /** The word w, in any letter case, starts the name. */
  ghost predicate Starts(w: string, name: string) {
    |w| <= |name| && Same(name[..|w|], w)
  }

  /** The names still possible after reading w, in table order. */
  ghost function Keep(names: seq<string>, w: string): seq<string> {
    if names == [] then []
    else if Starts(w, names[0]) then [names[0]] + Keep(names[1..], w)
    else Keep(names[1..], w)
  }

  function NamesOf(table: seq<Item>): seq<string> {
    seq(|table|, i requires 0 <= i < |table| => table[i].name)
  }

  /**
   * Reading stops with success after r characters: some name has just been completed, and what follows is white
   * space, or the input ends and the first name that starts this way is complete.
   */
  ghost predicate AcceptsAt(table: seq<Item>, input: string, r: nat) {
    && r <= |input| && Names(table, input[..r])
    && (if r < |input| then IsSpace(input[r])
        else var kept := Keep(NamesOf(table), input); kept != [] && Same(kept[0], input))
  }

  ghost predicate StopsAt(table: seq<Item>, input: string, r: nat) {
    r <= |input| && AcceptsAt(table, input, r) && forall q :: 0 <= q < r ==> !AcceptsAt(table, input, q)
  }

  /** One round over the names still possible, for the next character c or the end of input. */
  ghost function Advance(variants: seq<string>, r: nat, c: char): seq<string> {
    if variants == [] then []
    else if r < |variants[0]| && ToLower(variants[0][r]) == ToLower(c) then [variants[0]] + Advance(variants[1..], r, c)
    else Advance(variants[1..], r, c)
  }

  /** The first name of exactly that length, if any. */
  ghost function Complete(variants: seq<string>, r: nat): Option<string> {
    if variants == [] then None
    else if |variants[0]| == r then Some(variants[0])
    else Complete(variants[1..], r)
  }

  lemma StartsStep(w: string, c: char, name: string)
    ensures Starts(w + [c], name) <==> Starts(w, name) && |w| < |name| && ToLower(name[|w|]) == ToLower(c)
  {
    if |w| < |name| {
      assert name[..|w| + 1] == name[..|w|] + [name[|w|]];
      if Starts(w + [c], name) {
        assert forall i :: 0 <= i < |w| ==> name[..|w|][i] == name[..|w| + 1][i] && (w + [c])[i] == w[i];
        assert (w + [c])[|w|] == c;
      }
    }
  }

  lemma {:induction false} KeepStep(names: seq<string>, w: string, c: char)
    ensures Keep(names, w + [c]) == Advance(Keep(names, w), |w|, c)
  {
    if names != [] {
      KeepStep(names[1..], w, c);
      StartsStep(w, c, names[0]);
      if Starts(w, names[0]) {
        assert Keep(names, w)[1..] == Keep(names[1..], w);
      }
    }
  }

  lemma {:induction false} KeepAll(names: seq<string>)
    ensures Keep(names, "") == names
  {
    if names != [] {
      KeepAll(names[1..]);
      assert Starts("", names[0]);
      assert names == [names[0]] + names[1..];
    }
  }

  lemma {:induction false} KeepMember(names: seq<string>, w: string, n: string)
    ensures n in Keep(names, w) <==> n in names && Starts(w, n)
  {
    if names != [] {
      KeepMember(names[1..], w, n);
      assert n in names <==> n == names[0] || n in names[1..];
    }
  }

  lemma {:induction false} CompleteFinds(variants: seq<string>, r: nat)
    ensures match Complete(variants, r)
            case None => forall n :: n in variants ==> |n| != r
            case Some(n) => n in variants && |n| == r
  {
    if variants != [] {
      CompleteFinds(variants[1..], r);
    }
  }

  /** A possible name of the length read so far is a name of what was read. */
  lemma CompleteNames(table: seq<Item>, w: string)
    ensures Complete(Keep(NamesOf(table), w), |w|).Some? <==> Names(table, w)
    ensures Complete(Keep(NamesOf(table), w), |w|).Some? ==> Same(Complete(Keep(NamesOf(table), w), |w|).value, w)
  {
    var kept := Keep(NamesOf(table), w);
    CompleteFinds(kept, |w|);
    if Complete(kept, |w|).Some? {
      var n := Complete(kept, |w|).value;
      KeepMember(NamesOf(table), w, n);
      assert n[..|w|] == n;
      var k :| 0 <= k < |table| && NamesOf(table)[k] == n;
      assert Same(table[k].name, w);
    }
    if Names(table, w) {
      var k :| 0 <= k < |table| && Same(table[k].name, w);
      var n := table[k].name;
      assert NamesOf(table)[k] == n && n[..|w|] == n;
      KeepMember(NamesOf(table), w, n);
    }
  }

  /** The first item with a name equal to one that equals w is the first item named w. */
  lemma SameNames(table: seq<Item>, n: string, w: string)
    requires Same(n, w)
    ensures Names(table, n) <==> Names(table, w)
    ensures forall k :: FirstNamed(table, n, k) <==> FirstNamed(table, w, k)
  {
    forall k | 0 <= k < |table|
      ensures Same(table[k].name, n) <==> Same(table[k].name, w)
    {
    }
  }

  datatype Round = Round(tmp: seq<string>, bingo: Option<string>, more: bool)

  /** The inner loop: sort the possible names by the next character. */
  method Narrow(variants: seq<string>, r: nat, c: Option<char>) returns (o: Round)
    requires forall n :: n in variants ==> r <= |n|
    ensures c.None? && variants != [] ==>
              !o.more && o.bingo == if |variants[0]| == r then Some(variants[0]) else None
    ensures c.Some? && IsSpace(c.value) && Complete(variants, r).Some? ==> !o.more && o.bingo == Complete(variants, r)
    ensures c.Some? && (!IsSpace(c.value) || Complete(variants, r).None?) ==>
              o.more && o.bingo == None && o.tmp == Advance(variants, r, c.value)
  {
    var isEof, isSpace := c.None?, c.Some? && IsSpace(c.value);
    o := Round([], None, true);
    var i := 0;
    while i < |variants|
      invariant 0 <= i <= |variants| && o.more && o.bingo == None
      invariant isEof ==> i == 0
      invariant c.Some? ==> o.tmp + Advance(variants[i..], r, c.value) == Advance(variants, r, c.value)
      invariant Complete(variants[i..], r) == Complete(variants, r) || (c.Some? && !IsSpace(c.value))
    {
      var it := variants[i];
      assert variants[i..][0] == it && variants[i..][1..] == variants[i + 1..];
      if r == |it| {
        if isEof || isSpace {
          return Round(o.tmp, Some(it), false);
        }
      } else {
        if isEof {
          return Round(o.tmp, None, false);
        }
        if ToLower(it[r]) == ToLower(c.value) {
          ghost var later := Advance(variants[i + 1..], r, c.value);
          assert o.tmp + ([it] + later) == o.tmp + [it] + later;
          o := Round(o.tmp + [it], None, true);
        }
      }
      i := i + 1;
    }
  }

  /** What one round means for the input read so far. */
  lemma RoundMeans(table: seq<Item>, input: string, r: nat)
    requires r <= |input|
    ensures var kept := Keep(NamesOf(table), input[..r]);
            && (forall n :: n in kept ==> r <= |n|)
            && (r < |input| ==>
                  && (AcceptsAt(table, input, r) <==> IsSpace(input[r]) && Complete(kept, r).Some?)
                  && Keep(NamesOf(table), input[..r + 1]) == Advance(kept, r, input[r]))
            && (r == |input| ==> (AcceptsAt(table, input, r) <==> kept != [] && |kept[0]| == r))
            && (kept != [] && |kept[0]| == r ==> Same(kept[0], input[..r]))
            && (Complete(kept, r).Some? ==> Same(Complete(kept, r).value, input[..r]))
            && (kept == [] ==> forall q :: r <= q <= |input| ==> !AcceptsAt(table, input, q))
  {
    var w := input[..r];
    var kept := Keep(NamesOf(table), w);
    forall n | n in kept
      ensures Starts(w, n)
    {
      KeepMember(NamesOf(table), w, n);
    }
    CompleteNames(table, w);
    if r < |input| {
      assert input[..r + 1] == w + [input[r]];
      KeepStep(NamesOf(table), w, input[r]);
    } else {
      assert w == input;
      if kept != [] {
        assert kept[0] in kept;
        if |kept[0]| == r { assert kept[0][..r] == kept[0]; CompleteFinds(kept, r); }
      }
    }
    if kept == [] {
      forall q | r <= q <= |input|
        ensures !AcceptsAt(table, input, q)
      {
        if Names(table, input[..q]) {
          var k :| 0 <= k < |table| && Same(table[k].name, input[..q]);
          NamedStarts(table, input, r, q, k);
        }
      }
    }
  }

  lemma NamedStarts(table: seq<Item>, input: string, r: nat, q: nat, k: nat)
    requires r <= q <= |input| && k < |table| && Same(table[k].name, input[..q])
    ensures table[k].name in Keep(NamesOf(table), input[..r])
  {
    var n := table[k].name;
    assert NamesOf(table)[k] == n;
    assert forall i :: 0 <= i < r ==> n[..r][i] == n[i] && input[..r][i] == input[..q][i];
    KeepMember(NamesOf(table), input[..r], n);
  }

  /** Wherever reading stops, it has read that far, and the value is that of the first item of the name read. */
  ghost predicate Reads(table: seq<Item>, input: string, value: int, length: int) {
    forall r: nat, k :: StopsAt(table, input, r) && FirstNamed(table, input[..r], k) ==>
      value == table[k].value && length == r
  }

  /** No name can be completed at any point of the input. */
  ghost predicate NeverStops(table: seq<Item>, input: string) {
    forall r :: 0 <= r <= |input| ==> !AcceptsAt(table, input, r)
  }

  /** One round of the outer loop: a character, if there is one, and what it leaves of the names. */
  method ReadRound(stream: InStream, variants: seq<string>, r: nat, ghost table: seq<Item>, ghost input: string)
    returns (o: Round)
    requires stream.Good() && r <= stream.pos <= |stream.text| && input == stream.text[stream.pos - r..]
    requires variants != [] && variants == Keep(NamesOf(table), input[..r])
    modifies stream
    ensures !stream.fail && (o.bingo.Some? ==> !o.more)
    ensures o.more ==>
              && stream.Good() && r < |input| && stream.pos == old(stream.pos) + 1
              && o.tmp == Keep(NamesOf(table), input[..r + 1]) && !AcceptsAt(table, input, r)
    ensures !o.more && o.bingo == None ==> forall q :: r <= q <= |input| ==> !AcceptsAt(table, input, q)
    ensures o.bingo.Some? ==>
              && AcceptsAt(table, input, r) && Same(o.bingo.value, input[..r])
              && stream.pos == old(stream.pos) && (stream.eof <==> r == |input|)
  {
    hide Keep, AcceptsAt, Names, Same, Starts, Complete, Advance, IsSpace;
    RoundMeans(table, input, r);
    var c := stream.Bump();
    if c == None {
      stream.eof := true;
    }
    o := Narrow(variants, r, c);
    if o.bingo.Some? && c.Some? {
      // put the white space back
      stream.eof := false;
      stream.pos := stream.pos - 1;
    }
  }

  /** The outer loop: reads on while some name is possible; the name completed, if any, and the rounds it took. */
  method ReadName(stream: InStream, table: seq<Item>) returns (pBingo: Option<string>, readed: nat)
    requires stream.pos <= |stream.text| && table != []
    modifies stream
    ensures !old(stream.Good()) ==> pBingo == None && unchanged(stream)
    ensures old(stream.Good()) ==>
              var input := stream.text[old(stream.pos)..];
              && (pBingo == None ==> NeverStops(table, input))
              && (pBingo.Some? ==>
                    && 1 <= readed <= |input| + 1 && StopsAt(table, input, readed - 1)
                    && Same(pBingo.value, input[..readed - 1]) && stream.pos == old(stream.pos) + readed - 1
                    && !stream.fail && (stream.eof <==> readed - 1 == |input|))
  {
    hide Keep, AcceptsAt, Names, Same, Starts, Complete, Advance, IsSpace;
    pBingo, readed := None, 0;
    ghost var p0 := stream.pos;
    ghost var input := stream.text[p0..];
    ghost var good := stream.Good();
    var variants := NamesOf(table);
    var isNext := true;
    KeepAll(variants);
    assert input[..0] == "";
    while isNext && stream.Good() && variants != []
      invariant !good ==> isNext && !stream.Good() && pBingo == None && unchanged(stream)
      invariant good && isNext ==>
                  && stream.Good() && readed <= |input| && stream.pos == p0 + readed && pBingo == None
                  && variants == Keep(NamesOf(table), input[..readed])
                  && forall q :: 0 <= q < readed ==> !AcceptsAt(table, input, q)
      invariant good && !isNext ==> !stream.fail
      invariant good && !isNext && pBingo == None ==> NeverStops(table, input)
      invariant good && !isNext && pBingo.Some? ==>
                  && 1 <= readed <= |input| + 1 && StopsAt(table, input, readed - 1)
                  && Same(pBingo.value, input[..readed - 1])
                  && stream.pos == p0 + readed - 1 && (stream.eof <==> readed - 1 == |input|)
      decreases isNext, |input| - readed
    {
      var o := ReadRound(stream, variants, readed, table, input);
      if o.bingo.Some? {
        pBingo := o.bingo;
      }
      isNext := o.more;
      if isNext {
        variants := o.tmp;
      }
      readed := readed + 1;
    }
    if good && isNext { RoundMeans(table, input, readed); }
  }

  /**
   * Reads the shortest completed name that white space or the end of input follows, and leaves the rest unread;
   * otherwise sets the failure bit and the undefined value. Exact for every table.
   */
  method Extract(stream: InStream, table: seq<Item>, current: int) returns (value: int)
    requires stream.pos <= |stream.text|
    modifies stream
    ensures table == [] ==> value == current && unchanged(stream)
    ensures table != [] && !old(stream.Good()) ==> value == NPOS && stream.fail && stream.pos == old(stream.pos)
    ensures table != [] && old(stream.Good()) ==>
              var input := stream.text[old(stream.pos)..];
              && (stream.fail <==> NeverStops(table, input))
              && (stream.fail ==> value == NPOS)
              && Reads(table, input, value, stream.pos - old(stream.pos))
              && (!stream.fail ==> (stream.eof <==> stream.pos == |stream.text|))
  {
    hide Keep, AcceptsAt, Names, Same, Starts, Complete, Advance, IsSpace, FirstNamed, StopsAt, NeverStops;
    if table == [] { return current; }
    value := NPOS;
    ghost var input := stream.text[stream.pos..];
    var pBingo, readed := ReadName(stream, table);
    if pBingo.Some? {
      var k := IndexString(table, pBingo.value);
      value := if k == -1 then NPOS else table[k].value;
      Decided(table, input, readed - 1, pBingo.value, k);
    } else {
      stream.fail := true;
      NothingStops(table, input);
    }
  }

  lemma NothingStops(table: seq<Item>, input: string)
    ensures NeverStops(table, input) ==> forall r: nat :: !StopsAt(table, input, r)
  {
  }

  lemma StopsOnce(table: seq<Item>, input: string, r: nat)
    requires StopsAt(table, input, r)
    ensures forall q: nat :: StopsAt(table, input, q) ==> q == r
    ensures !NeverStops(table, input) && Names(table, input[..r])
    ensures forall j, k :: FirstNamed(table, input[..r], j) && FirstNamed(table, input[..r], k) ==> j == k
  {
  }

  /** Once reading has stopped, the first item with the completed name is the only possible outcome. */
  lemma Decided(table: seq<Item>, input: string, r: nat, w: string, k: int)
    requires StopsAt(table, input, r) && Same(w, input[..r])
    requires if Names(table, w) then FirstNamed(table, w, k) else k == -1
    ensures 0 <= k < |table| && !NeverStops(table, input)
    ensures forall q: nat, j :: StopsAt(table, input, q) && FirstNamed(table, input[..q], j) ==> q == r && j == k
  {
    SameNames(table, w, input[..r]);
    StopsOnce(table, input, r);
    hide Same, Names, AcceptsAt, StopsAt;
  }

  // ---------- which tables accept every name ----------

  /** The first name in the table that starts with the k-th name is the k-th name, in any letter case. */
  ghost predicate LeadsItself(table: seq<Item>, k: int)
    requires 0 <= k < |table|
  {
    var kept := Keep(NamesOf(table), table[k].name);
    kept != [] && Same(kept[0], table[k].name)
  }

  ghost predicate AllLead(table: seq<Item>) {
    forall k :: 0 <= k < |table| ==> LeadsItself(table, k)
  }

  lemma StartsSame(w: string, v: string, name: string)
    requires Same(w, v)
    ensures Starts(w, name) <==> Starts(v, name)
  {
  }

  lemma {:induction false} KeepSame(names: seq<string>, w: string, v: string)
    requires Same(w, v)
    ensures Keep(names, w) == Keep(names, v)
  {
    if names != [] {
      StartsSame(w, v, names[0]);
      KeepSame(names[1..], w, v);
    }
  }

  lemma EndAccepts(table: seq<Item>, input: string, k: int)
    requires 0 <= k < |table| && Same(table[k].name, input)
    ensures AcceptsAt(table, input, |input|) <==> LeadsItself(table, k)
  {
    KeepSame(NamesOf(table), table[k].name, input);
    assert input[..|input|] == input;
  }

  /** No part of the k-th name that white space follows is a name itself. */
  ghost predicate Whole(table: seq<Item>, k: int)
    requires 0 <= k < |table|
  {
    var n := table[k].name;
    forall q :: 0 <= q < |n| && IsSpace(n[q]) ==> !Names(table, n[..q])
  }

  ghost predicate AllWhole(table: seq<Item>) {
    forall k :: 0 <= k < |table| ==> Whole(table, k)
  }

  /** What reads like the k-th name is accepted before its end exactly where the name itself breaks. */
  lemma BreaksAlike(table: seq<Item>, input: string, k: int, q: nat)
    requires 0 <= k < |table| && q < |table[k].name| <= |input| && Same(table[k].name, input[..|table[k].name|])
    ensures AcceptsAt(table, input, q) <==> IsSpace(table[k].name[q]) && Names(table, table[k].name[..q])
  {
    var n := table[k].name;
    assert input[..|n|][q] == input[q] && input[..|n|][..q] == input[..q];
    assert Same(n[..q], input[..q]);
    SameNames(table, n[..q], input[..q]);
  }

  /** The parser stops at the end of a name, read from its start, exactly if nothing in it ends a name before. */
  lemma NameStops(table: seq<Item>, input: string, k: int)
    requires 0 <= k < |table| && |table[k].name| <= |input| && Same(table[k].name, input[..|table[k].name|])
    ensures StopsAt(table, input, |table[k].name|) <==>
            && Whole(table, k)
            && (if |table[k].name| == |input| then LeadsItself(table, k) else IsSpace(input[|table[k].name|]))
  {
    var r := |table[k].name|;
    assert Names(table, input[..r]);
    if r == |input| {
      assert input[..r] == input;
      EndAccepts(table, input, k);
    }
    forall q | 0 <= q < r
      ensures AcceptsAt(table, input, q) <==> IsSpace(table[k].name[q]) && Names(table, table[k].name[..q])
    {
      BreaksAlike(table, input, k, q);
    }
    hide AcceptsAt;
    if r < |input| { LongerAccepts(table, input, r); }
  }

  lemma LongerAccepts(table: seq<Item>, input: string, r: nat)
    requires r < |input| && Names(table, input[..r])
    ensures AcceptsAt(table, input, r) <==> IsSpace(input[r])
  {
  }

  /**
   * Whether every name of a table can be read: given any of them, in any letter case, the parser reads all of it
   * exactly if each name is the first that starts with it and none is cut short by another at a white space.
   */
  lemma EveryNameStops(table: seq<Item>)
    ensures AllLead(table) && AllWhole(table) <==>
            forall input :: Names(table, input) ==> StopsAt(table, input, |input|)
  {
    hide StopsAt, Whole, LeadsItself;
    if AllLead(table) && AllWhole(table) {
      forall input | Names(table, input)
        ensures StopsAt(table, input, |input|)
      {
        var k :| 0 <= k < |table| && Same(table[k].name, input);
        assert input[..|input|] == input;
        NameStops(table, input, k);
      }
    } else {
      var k :| 0 <= k < |table| && !(LeadsItself(table, k) && Whole(table, k));
      var input := table[k].name;
      assert Same(table[k].name, input) && Names(table, input) && input[..|input|] == input;
      NameStops(table, input, k);
      assert !StopsAt(table, input, |input|);
    }
  }

  ghost predicate PrefixFree(table: seq<Item>) {
    forall j, k :: 0 <= j < |table| && 0 <= k < |table| && j != k ==> !Starts(table[j].name, table[k].name)
  }

  /** If no name starts another, every name can be read. */
  lemma PrefixFreeLeads(table: seq<Item>)
    requires PrefixFree(table)
    ensures AllLead(table) && AllWhole(table)
  {
    forall k, q | 0 <= k < |table| && 0 <= q < |table[k].name|
      ensures !Names(table, table[k].name[..q])
    {
      if Names(table, table[k].name[..q]) {
        var j :| 0 <= j < |table| && Same(table[j].name, table[k].name[..q]);
        assert Starts(table[j].name, table[k].name);
      }
    }
    forall k | 0 <= k < |table|
      ensures LeadsItself(table, k)
    {
      var names, w := NamesOf(table), table[k].name;
      assert w[..|w|] == w && names[k] == w;
      KeepMember(names, w, w);
      var kept := Keep(names, w);
      KeepMember(names, w, kept[0]);
      var j :| 0 <= j < |table| && names[j] == kept[0];
    }
  }

  /** In such a table a name is accepted exactly where it is written in full, before white space or the end. */
  lemma WholeNames(table: seq<Item>, input: string, r: nat)
    requires AllLead(table)
    ensures AcceptsAt(table, input, r) <==>
            r <= |input| && Names(table, input[..r]) && (r < |input| ==> IsSpace(input[r]))
  {
    if r == |input| && Names(table, input[..r]) {
      assert input[..r] == input;
      var k :| 0 <= k < |table| && Same(table[k].name, input);
      EndAccepts(table, input, k);
    }
  }

  lemma PrefixFreeOnce(table: seq<Item>, input: string, q: nat, r: nat)
    requires PrefixFree(table) && q <= r <= |input| && Names(table, input[..q]) && Names(table, input[..r])
    ensures q == r
  {
    var j :| 0 <= j < |table| && Same(table[j].name, input[..q]);
    var k :| 0 <= k < |table| && Same(table[k].name, input[..r]);
    assert forall i :: 0 <= i < q ==> input[..q][i] == input[..r][i] && table[k].name[..q][i] == table[k].name[i];
    assert Starts(table[j].name, table[k].name);
  }

  /**
   * Parsing accepts an input exactly if it is some name, in any letter case, up to white space or the end; where no
   * name starts another there is only one such place.
   */
  lemma AcceptedInputs(table: seq<Item>, input: string)
    requires AllLead(table)
    ensures !NeverStops(table, input) <==>
            exists r: nat :: r <= |input| && Names(table, input[..r]) && (r < |input| ==> IsSpace(input[r]))
    ensures PrefixFree(table) ==> forall r: nat :: StopsAt(table, input, r) <==> AcceptsAt(table, input, r)
  {
    forall r: nat
      ensures AcceptsAt(table, input, r) <==>
              r <= |input| && Names(table, input[..r]) && (r < |input| ==> IsSpace(input[r]))
    {
      WholeNames(table, input, r);
    }
    forall r: nat | PrefixFree(table) && AcceptsAt(table, input, r)
      ensures StopsAt(table, input, r)
    {
      forall q | 0 <= q < r
        ensures !AcceptsAt(table, input, q)
      {
        if AcceptsAt(table, input, q) { PrefixFreeOnce(table, input, q, r); }
      }
    }
    if exists r: nat :: AcceptsAt(table, input, r) {
      var r: nat :| AcceptsAt(table, input, r);
      assert 0 <= r <= |input|;
    }
  }

  /** The k-th item can be printed before `rest` and read back. */
  ghost predicate ReadsBack(table: seq<Item>, k: int, rest: string)
    requires 0 <= k < |table|
  {
    FirstNamed(table, table[k].name, k) && Whole(table, k) && (rest == "" ==> LeadsItself(table, k))
  }

  lemma PrintedStops(table: seq<Item>, k: nat, rest: string)
    requires k < |table| && (rest == "" || IsSpace(rest[0]))
    ensures var input, r := table[k].name + rest, |table[k].name|;
            && input[..r] == table[k].name && input[r..] == rest
            && (StopsAt(table, input, r) <==> Whole(table, k) && (rest == "" ==> LeadsItself(table, k)))
  {
    var input, r := table[k].name + rest, |table[k].name|;
    assert input[..r] == table[k].name && input[r..] == rest;
    NameStops(table, input, k);
  }

  /** Where reading does not fail it stops somewhere, at the first item of some name. */
  lemma SomeStop(table: seq<Item>, input: string) returns (r: nat, k: int)
    requires !NeverStops(table, input)
    ensures StopsAt(table, input, r) && FirstNamed(table, input[..r], k)
  {
    r := 0;
    while !AcceptsAt(table, input, r)
      invariant r <= |input| && forall q :: 0 <= q < r ==> !AcceptsAt(table, input, q)
      decreases |input| - r
    {
      assert r < |input|;
      r := r + 1;
    }
    k := 0;
    while !Same(table[k].name, input[..r])
      invariant 0 <= k < |table| && forall j :: 0 <= j < k ==> !Same(table[j].name, input[..r])
      decreases |table| - k
    {
      assert k + 1 < |table|;
      k := k + 1;
    }
  }

  /**
   * Printing a defined value and parsing it back, whatever white space and text follow, returns the value and leaves
   * what follows exactly if its item reads back.
   */
  method PrintAndParse(table: seq<Item>, v: int, rest: string) returns (w: int, stream: InStream)
    requires 0 <= Position(table, v) < |table| && (rest == "" || IsSpace(rest[0]))
    ensures w == v && !stream.fail && stream.pos <= |stream.text| && stream.text[stream.pos..] == rest <==>
            ReadsBack(table, Position(table, v), rest)
  {
    hide NeverStops, ReadsBack, Whole, LeadsItself, AcceptsAt, Same;
    PrintedStops(table, Position(table, v), rest);
    var s := ToStdString(table, v);
    stream := new InStream(s + rest);
    ghost var input := stream.text[stream.pos..];
    assert input == table[Position(table, v)].name + rest && stream.Good();
    w := Extract(stream, table, NPOS);
    ReadBackOr(table, v, rest, input, w, stream.fail, stream.pos);
    if stream.pos <= |stream.text| { SameRest(s, rest, stream.pos); }
  }

  lemma SameRest(s: string, rest: string, pos: nat)
    requires pos <= |s + rest|
    ensures (s + rest)[pos..] == rest <==> pos == |s|
  {
    if pos == |s| { assert (s + rest)[pos..] == rest; }
    assert |(s + rest)[pos..]| == |s| + |rest| - pos;
  }

  lemma ReadBackOr(table: seq<Item>, v: int, rest: string, input: string, w: int, fail: bool, pos: nat)
    requires 0 <= Position(table, v) < |table| && (rest == "" || IsSpace(rest[0]))
    requires input == table[Position(table, v)].name + rest
             && (fail <==> NeverStops(table, input))
             && Reads(table, input, w, pos)
    ensures var k := Position(table, v);
            w == v && !fail && pos == |table[k].name| <==> ReadsBack(table, k, rest)
  {
    var k, at := Position(table, v), |table[Position(table, v)].name|;
    PrintedStops(table, k, rest);
    hide StopsAt, Whole, LeadsItself, NeverStops;
    if !fail {
      var r, j := SomeStop(table, input);
      StopsOnce(table, input, r);
    }
    if ReadsBack(table, k, rest) {
      StopsOnce(table, input, at);
    }
  }

  /** The same two names in both orders: after the longer one the shorter cannot end the input. */
  lemma OrderMatters()
    ensures var a, ab := Item(1, "a"), Item(2, "ab");
            AllLead([a, ab]) && !PrefixFree([a, ab]) && !AllLead([ab, a])
            && AcceptsAt([a, ab], "a", 1) && !AcceptsAt([ab, a], "a", 1)
  {
    var a, ab := Item(1, "a"), Item(2, "ab");
    assert "a"[..1] == "a" && "ab"[..1] == "a" && "ab"[..2] == "ab";
    assert NamesOf([a, ab]) == ["a", "ab"] && NamesOf([ab, a]) == ["ab", "a"];
    assert Starts("a", "ab") && Starts("a", "a") && Starts("ab", "ab") && !Starts("ab", "a");
    assert Keep(["a", "ab"], "a")[0] == "a" && Keep(["ab", "a"], "a")[0] == "ab";
    assert Keep(["a", "ab"], "ab") == ["ab"] by { assert Keep(["ab"], "ab")[0] == "ab"; }
    assert LeadsItself([a, ab], 0) && LeadsItself([a, ab], 1) && !LeadsItself([ab, a], 1);
    EndAccepts([a, ab], "a", 0);
    EndAccepts([ab, a], "a", 1);
  }

  /** A name may also be cut short at its own white space: each name leads itself, and yet "a b" is never read. */
  lemma BrokenName()
    ensures var table := [Item(1, "a"), Item(2, "a b")];
            && AllLead(table) && !AllWhole(table)
            && Names(table, "a b") && StopsAt(table, "a b", 1) && FirstNamed(table, "a", 0)
  {
    var table, names := [Item(1, "a"), Item(2, "a b")], ["a", "a b"];
    assert "a"[..1] == "a" && "a b"[..1] == "a" && "a b"[..3] == "a b" && "a b"[1] == ' ';
    assert NamesOf(table) == names && Same("a", "a") && Same("a b", "a b");
    assert Starts("a", "a") && Starts("a b", "a b") && !Starts("a b", "a");
    assert Keep(names, "a")[0] == "a" && Keep(["a b"], "a b")[0] == "a b";
    assert LeadsItself(table, 0) && LeadsItself(table, 1);
    assert Same(table[0].name, "a") && Same(table[1].name, "a b");
    BreaksAlike(table, "a b", 1, 1);
    assert !Names(table, "a b"[..0]);
    assert Names(table, "a b"[..1]) && Names(table, "a b");
    assert !Whole(table, 1);
    assert AcceptsAt(table, "a b", 1) && !AcceptsAt(table, "a b", 0);
  }

  /**
   * In a table where no name starts another, a name is read back whatever case its letters are put in, if a blank or
   * nothing follows; followed by anything else it is not read.
   */
  method ReadAnyCase(table: seq<Item>, k: nat, w: string, rest: string) returns (value: int, stream: InStream)
    requires PrefixFree(table) && k < |table| && SameLetters(w, table[k].name)
    ensures rest == "" || rest[0] in BLANKS ==> value == table[k].value && !stream.fail && stream.pos == |w|
    ensures rest != "" && rest[0] !in BLANKS ==> value == NPOS && stream.fail
  {
    stream := new InStream(w + rest);
    AnyCase(table, k, w, rest);
    assert stream.text[0..] == w + rest;
    value := Extract(stream, table, NPOS);
  }

  lemma AnyCase(table: seq<Item>, k: nat, w: string, rest: string)
    requires PrefixFree(table) && k < |table| && SameLetters(w, table[k].name)
    ensures var input := w + rest;
            if rest == "" || rest[0] in BLANKS then StopsAt(table, input, |w|) && FirstNamed(table, input[..|w|], k)
            else NeverStops(table, input)
  {
    var input, n := w + rest, table[k].name;
    SameByLetters(w, n);
    assert input[..|w|] == w && Same(n, w);
    PrefixFreeLeads(table);
    if rest == "" || rest[0] in BLANKS {
      BlanksAre(if rest == "" then ' ' else rest[0]);
      NameStops(table, input, k);
      forall j | 0 <= j < k
        ensures !Same(table[j].name, w)
      {
        if Same(table[j].name, w) { assert Starts(table[j].name, n); }
      }
    } else {
      BlanksAre(rest[0]);
      forall r | 0 <= r <= |input|
        ensures !AcceptsAt(table, input, r)
      {
        WholeNames(table, input, r);
        if AcceptsAt(table, input, r) {
          PrefixFreeOnce(table, input, if r <= |w| then r else |w|, if r <= |w| then |w| else r);
        }
      }
    }
  }

  // ---------- stepping ----------

  /** The items in table order, then the undefined value, in a circle. */
  function ValueAt(table: seq<Item>, p: int): int
    requires 0 <= p <= |table|
  {
    if p == |table| then NPOS else table[p].value
  }

  function Forward(p: int, m: int): int
    requires 0 < m
  {
    (p + 1) % m
  }

  function Backward(p: int, m: int): int
    requires 0 < m
  {
    (p + (m - 1)) % m
  }

  /** The place of a value in the circle; unknown values stand with the undefined one. */
  function Place(table: seq<Item>, v: int): (p: int)
    ensures 0 <= p <= |table|
  {
    if v == NPOS || Position(table, v) == -1 then |table| else Position(table, v)
  }

  function Incremented(table: seq<Item>, v: int): int {
    if v != NPOS && Position(table, v) == -1 then NPOS
    else ValueAt(table, Forward(Place(table, v), |table| + 1))
  }

  function Decremented(table: seq<Item>, v: int): int {
    if v != NPOS && Position(table, v) == -1 then NPOS
    else ValueAt(table, Backward(Place(table, v), |table| + 1))
  }

  lemma ModSmall(a: int, m: int)
    requires 0 <= a < m
    ensures a % m == a
  {
  }

  lemma ModUnique(a: int, m: int, k: int, b: int)
    requires 0 <= b < m && a == k * m + b
    ensures a % m == b
  {
    var d := a / m - k;
    assert a == (a / m) * m + a % m;
    assert d * m == b - a % m;
    assert d >= 1 ==> d * m >= m;
    assert d <= -1 ==> d * m <= -m;
  }

  lemma ModStep(a: int, m: int)
    requires 0 <= a && 0 < m
    ensures (a % m + 1) % m == (a + 1) % m
  {
    var k := a / m;
    assert a == k * m + a % m;
    if a % m + 1 == m {
      assert a + 1 == (k + 1) * m;
      ModUnique(a + 1, m, k + 1, 0);
    } else {
      ModUnique(a + 1, m, k, a % m + 1);
      ModSmall(a % m + 1, m);
    }
  }

  lemma NextInCircle(table: seq<Item>, v: int)
    ensures var k := Position(table, v);
            Incremented(table, v) == if v == NPOS then (if table == [] then NPOS else table[0].value)
                                     else if 0 <= k < |table| - 1 then table[k + 1].value else NPOS
  {
    var m, p := |table| + 1, Place(table, v);
    if p + 1 == m { ModUnique(p + 1, m, 1, 0); } else { ModSmall(p + 1, m); }
  }

  lemma PreviousInCircle(table: seq<Item>, v: int)
    ensures var k := Position(table, v);
            Decremented(table, v) == if v == NPOS then (if table == [] then NPOS else table[|table| - 1].value)
                                     else if 0 < k then table[k - 1].value else NPOS
  {
    var m, p := |table| + 1, Place(table, v);
    if p == 0 { ModSmall(|table|, m); } else { ModUnique(p + |table|, m, 1, p - 1); }
  }

  ghost predicate Distinct(table: seq<Item>) {
    && (forall j, k :: 0 <= j < k < |table| ==> table[j].value != table[k].value)
    && (forall k :: 0 <= k < |table| ==> table[k].value != NPOS)
  }

  lemma PlaceOfValue(table: seq<Item>, p: int)
    requires Distinct(table) && 0 <= p <= |table|
    ensures Place(table, ValueAt(table, p)) == p
    ensures ValueAt(table, p) != NPOS ==> Position(table, ValueAt(table, p)) == p
  {
  }

  lemma ValueOfPlace(table: seq<Item>, v: int)
    requires v == NPOS || Position(table, v) >= 0
    ensures ValueAt(table, Place(table, v)) == v
  {
  }

  function Steps(table: seq<Item>, v: int, n: nat): int {
    if n == 0 then v else Incremented(table, Steps(table, v, n - 1))
  }

  /** n steps from place p end at place p + n, around the circle. */
  lemma {:induction false} StepsPlace(table: seq<Item>, p: int, n: nat)
    requires Distinct(table) && 0 <= p <= |table|
    ensures Steps(table, ValueAt(table, p), n) == ValueAt(table, (p + n) % (|table| + 1))
  {
    hide Distinct;
    var m := |table| + 1;
    if n != 0 {
      StepsPlace(table, p, n - 1);
      var q := (p + n - 1) % m;
      PlaceOfValue(table, q);
      ModStep(p + n - 1, m);
    } else {
      ModSmall(p, m);
    }
  }

  /** Going one place forward and then |table| places forward is going once around, and the other way as well. */
  lemma AroundOnce(p: int, m: int)
    requires 0 <= p < m
    ensures 0 <= Forward(p, m) < m && Backward(Forward(p, m), m) == p
    ensures 0 <= Backward(p, m) < m && Forward(Backward(p, m), m) == p
  {
    if p + 1 == m {
      ModUnique(p + 1, m, 1, 0);
    } else {
      ModSmall(p + 1, m);
      ModUnique(p + m, m, 1, p);
    }
    if p == 0 {
      ModSmall(m - 1, m);
      ModUnique(m, m, 1, 0);
    } else {
      ModUnique(p + m - 1, m, 1, p - 1);
    }
    ModSmall(p, m);
  }

  /** A step moves one place along the circle, in either direction. */
  lemma StepMoves(table: seq<Item>, p: int)
    requires Distinct(table) && 0 <= p <= |table|
    ensures Incremented(table, ValueAt(table, p)) == ValueAt(table, Forward(p, |table| + 1))
    ensures Decremented(table, ValueAt(table, p)) == ValueAt(table, Backward(p, |table| + 1))
  {
    PlaceOfValue(table, p);
  }

  /** Stepping forward and back are inverse on the items and the undefined value. */
  lemma StepsInverse(table: seq<Item>, v: int)
    requires Distinct(table) && (v == NPOS || Position(table, v) >= 0)
    ensures Decremented(table, Incremented(table, v)) == v
    ensures Incremented(table, Decremented(table, v)) == v
  {
    hide Distinct, Incremented, Decremented, ValueAt, Place, Position, Forward, Backward;
    var m, p := |table| + 1, Place(table, v);
    ValueOfPlace(table, v);
    AroundOnce(p, m);
    StepMoves(table, p);
    StepMoves(table, Forward(p, m));
    StepMoves(table, Backward(p, m));
  }

  /** One more step than there are items is a full circle. */
  lemma FullCircle(table: seq<Item>, v: int)
    requires Distinct(table) && (v == NPOS || Position(table, v) >= 0)
    ensures Steps(table, v, |table| + 1) == v
  {
    var p := Place(table, v);
    ValueOfPlace(table, v);
    StepsPlace(table, p, |table| + 1);
    ModUnique(p + |table| + 1, |table| + 1, 1, p);
  }

  class EnumValue {
    const table: seq<Item>
    var value: int

    constructor (table: seq<Item>, value: int)
      ensures this.table == table && this.value == value
    {
      this.table, this.value := table, value;
    }

    method Incr()
      modifies this
      ensures value == Incremented(table, old(value))
      ensures old(value) == NPOS ==> value == if table == [] then NPOS else table[0].value
      ensures forall k :: 0 <= k < |table| && old(value) == table[k].value && Distinct(table) ==>
                value == if k + 1 < |table| then table[k + 1].value else NPOS
    {
      NextInCircle(table, value);
      hide Incremented;
      if value != NPOS {
        var k := IndexEnum(table, value);
        if k >= 0 {
          if k != |table| - 1 {
            value := table[k + 1].value;
          } else {
            value := NPOS;
          }
        } else {
          value := NPOS;
        }
      } else if |table| != 0 {
        value := table[0].value;
      }
    }

    method Decr()
      modifies this
      ensures value == Decremented(table, old(value))
      ensures old(value) == NPOS ==> value == if table == [] then NPOS else table[|table| - 1].value
      ensures forall k :: 0 <= k < |table| && old(value) == table[k].value && Distinct(table) ==>
                value == if k > 0 then table[k - 1].value else NPOS
    {
      PreviousInCircle(table, value);
      hide Decremented;
      if value != NPOS {
        var k := IndexEnum(table, value);
        if k >= 0 {
          if k != 0 {
            value := table[k - 1].value;
          } else {
            value := NPOS;
          }
        } else {
          value := NPOS;
        }
      } else if |table| != 0 {
        value := table[|table| - 1].value;
      }
    }
  }

  /** From `begin` the items come in table order, each once, and then `end`. */
  method Enumerate(table: seq<Item>) returns (values: seq<int>)
    requires Distinct(table)
    ensures values == seq(|table|, i requires 0 <= i < |table| => table[i].value)
  {
    values := [];
    if table == [] { return; }
    var e := new EnumValue(table, table[0].value);
    while e.value != NPOS
      invariant |values| <= |table| && e.value == ValueAt(table, |values|)
      invariant forall i :: 0 <= i < |values| ==> values[i] == table[i].value
      decreases |table| - |values|
    {
      PlaceOfValue(table, |values|);
      ModSmall(|values| + 1, |table| + 1);
      values := values + [e.value];
      e.Incr();
    }
  }
}
