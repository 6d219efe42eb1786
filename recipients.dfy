/**
 * The recipient list of the outgoing mail: the `EMAIL_TO` setting is split
 * on commas, every piece is stripped of surrounding whitespace, and the
 * pieces left blank are dropped. The message header joins the addresses
 * back with ", ".
 */
module Recipients {
  import opened PyText

  /** An address as the parser hands it out: non-empty, comma-free, no whitespace at either end. */
  predicate Clean(a: string) {
    a != [] && ',' !in a && !IsSpace(a[0]) && !IsSpace(a[|a| - 1])
  }

  /** Every piece stripped, in order, with the pieces that strip to nothing dropped. */
  function KeepNonBlank(pieces: seq<string>): (r: seq<string>)
    ensures |r| <= |pieces|
    ensures forall a <- r :: a != [] && !IsSpace(a[0]) && !IsSpace(a[|a| - 1])
  {
    if pieces == [] then []
    else
      var a := Strip(pieces[0]);
      var rest := KeepNonBlank(pieces[1..]);
      if a != [] then [a] + rest else rest
  }

  /**
   * The list comprehension over `EMAIL_TO.split(",")`: every address it
   * yields is clean, and there are at most as many as there are pieces,
   * one more than the commas.
   */
  function ParseRecipients(raw: string): (r: seq<string>)
    ensures forall a <- r :: Clean(a)
    ensures |r| <= |Split(raw, ',')|
    ensures |r| <= multiset(raw)[','] + 1
  {
    var pieces := Split(raw, ',');
    SplitCount(raw, ',');
    CommaFreeKept(pieces);
    KeepNonBlank(pieces)
  }

  /**
   * The `To` header: the addresses joined with ", ", the first one at the
   * front and two characters of glue between each two neighbours.
   */
  function ToHeader(addrs: seq<string>): (h: string)
    ensures addrs == [] ==> h == []
    ensures addrs != [] ==> addrs[0] <= h && |h| == TotalLength(addrs) + 2 * (|addrs| - 1)
  {
    if addrs != [] then
      JoinLength(addrs, ", ");
      JoinStartsWithFirst(addrs, ", ");
      Join(addrs, ", ")
    else Join(addrs, ", ")
  }

  /** Stripping cuts a slice out of its input, so it brings in no new character. */
  lemma StripKeepsOut(s: string, c: char)
    requires c !in s
    ensures c !in Strip(s)
  {
    var r := Strip(s);
    var i :| SpaceAround(s, i, r);
    forall k | 0 <= k < |r| ensures r[k] != c {
      assert r[k] == s[i + k];
    }
  }

  /** Pieces without a comma stay without one once stripped. */
  lemma {:induction false} CommaFreeKept(pieces: seq<string>)
    requires forall p <- pieces :: ',' !in p
    ensures forall a <- KeepNonBlank(pieces) :: ',' !in a
  {
    if pieces != [] {
      assert pieces[0] in pieces;
      assert forall p <- pieces[1..] :: p in pieces;
      StripKeepsOut(pieces[0], ',');
      CommaFreeKept(pieces[1..]);
    }
  }

  /** Keeping the non-blank pieces of two lists one after the other keeps them in that order. */
  lemma {:induction false} KeepNonBlankAppend(a: seq<string>, b: seq<string>)
    ensures KeepNonBlank(a + b) == KeepNonBlank(a) + KeepNonBlank(b)
  {
    if a != [] {
      assert (a + b)[1..] == a[1..] + b;
      KeepNonBlankAppend(a[1..], b);
    } else {
      assert a + b == b;
    }
  }

  /**
   * Order is preserved: the `j`-th comma-separated piece contributes its
   * stripped text, or nothing when that is empty, between what the pieces
   * before it and the pieces after it contribute.
   */
  lemma ParseKeepsOrder(raw: string, j: nat)
    requires j < |Split(raw, ',')|
    ensures ParseRecipients(raw)
              == KeepNonBlank(Split(raw, ',')[..j])
                 + (if Strip(Split(raw, ',')[j]) == [] then [] else [Strip(Split(raw, ',')[j])])
                 + KeepNonBlank(Split(raw, ',')[j + 1..])
  {
    KeepAround(Split(raw, ','), j);
  }

  /** What the piece at `j` contributes, between the pieces before and after it. */
  lemma KeepAround(pieces: seq<string>, j: nat)
    requires j < |pieces|
    ensures KeepNonBlank(pieces)
              == KeepNonBlank(pieces[..j])
                 + (if Strip(pieces[j]) == [] then [] else [Strip(pieces[j])])
                 + KeepNonBlank(pieces[j + 1..])
  {
    var before, here, after := pieces[..j], [pieces[j]], pieces[j + 1..];
    assert pieces == before + (here + after);
    KeepNonBlankAppend(before, here + after);
    KeepNonBlankAppend(here, after);
    assert here[1..] == [];
    var mid := if Strip(pieces[j]) == [] then [] else [Strip(pieces[j])];
    assert KeepNonBlank(here) == mid;
    AppendAssoc(KeepNonBlank(before), mid, KeepNonBlank(after));
  }

  /** Every address but the first, as it follows a comma in the header: behind one space. */
  function Spaced(addrs: seq<string>): (r: seq<string>)
    ensures |r| == |addrs|
  {
    seq(|addrs|, i requires 0 <= i < |addrs| => " " + addrs[i])
  }

  /** Splitting a header on commas gives the first address, then the others behind their space. */
  lemma {:induction false} SplitHeader(addrs: seq<string>)
    requires addrs != []
    requires forall a <- addrs :: ',' !in a
    ensures Split(Join(addrs, ", "), ',') == [addrs[0]] + Spaced(addrs[1..])
  {
    if |addrs| == 1 {
      SplitWithoutSeparator(addrs[0], ',');
    } else {
      var tail := Join(addrs[1..], ", ");
      assert addrs[0] in addrs;
      assert forall a <- addrs[1..] :: a in addrs;
      SplitHeader(addrs[1..]);
      var s := " " + tail;
      assert Join(addrs, ", ") == addrs[0] + [','] + s;
      SplitAtSeparator(addrs[0], s, ',');
      assert s[0] == ' ' && s[1..] == tail;
      var rest := Split(tail, ',');
      assert Split(s, ',') == [" " + rest[0]] + rest[1..];
      assert addrs[1..][1..] == addrs[2..];
    }
  }

  /** A clean address behind a space strips back to itself. */
  lemma StripSpaced(a: string)
    requires Clean(a)
    ensures Strip(" " + a) == a
  {
    var s := " " + a;
    assert s[1..] == a;
    var r := Strip(s);
    var i :| SpaceAround(s, i, r);
    assert IsSpace(s[0]) && s[1] == a[0] && s[|s| - 1] == a[|a| - 1];
  }

  /** The addresses behind their spaces are kept exactly. */
  lemma {:induction false} KeepSpaced(addrs: seq<string>)
    requires forall a <- addrs :: Clean(a)
    ensures KeepNonBlank(Spaced(addrs)) == addrs
  {
    if addrs != [] {
      assert addrs[0] in addrs;
      assert forall a <- addrs[1..] :: a in addrs;
      StripSpaced(addrs[0]);
      assert Spaced(addrs)[1..] == Spaced(addrs[1..]);
      KeepSpaced(addrs[1..]);
    }
  }

  /** Parsing the `To` header of clean addresses gives back exactly those addresses. */
  lemma HeaderRoundTrip(addrs: seq<string>)
    requires forall a <- addrs :: Clean(a)
    ensures ParseRecipients(ToHeader(addrs)) == addrs
  {
    assert ToHeader(addrs) == Join(addrs, ", ");
    JoinedRoundTrip(addrs);
  }

  /** Keeping the non-blank pieces of the comma-split join gives the clean addresses back. */
  lemma JoinedRoundTrip(addrs: seq<string>)
    requires forall a <- addrs :: Clean(a)
    ensures KeepNonBlank(Split(Join(addrs, ", "), ',')) == addrs
  {
    if addrs != [] {
      assert forall a <- addrs :: ',' !in a;
      SplitHeader(addrs);
      var pieces := [addrs[0]] + Spaced(addrs[1..]);
      assert pieces[1..] == Spaced(addrs[1..]);
      StripClean(addrs[0]);
      assert forall a <- addrs[1..] :: a in addrs;
      KeepSpaced(addrs[1..]);
      assert [addrs[0]] + addrs[1..] == addrs;
    }
  }

  /** A clean address is its own strip. */
  lemma StripClean(a: string)
    requires Clean(a)
    ensures Strip(a) == a
  {
    var r := Strip(a);
    var i :| SpaceAround(a, i, r);
    assert !IsSpace(a[0]) && !IsSpace(a[|a| - 1]);
  }

  /** Parsing is idempotent through the header: re-parsing the joined result changes nothing. */
  lemma ParseHeaderIdempotent(raw: string)
    ensures ParseRecipients(ToHeader(ParseRecipients(raw))) == ParseRecipients(raw)
  {
    HeaderRoundTrip(ParseRecipients(raw));
  }
}
