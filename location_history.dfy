/** The inspector-role label of the location history card: the job type
    split at '-', each piece with its first character upper-cased, the
    pieces joined by spaces. */
module LocationHistory {
  import opened Common

  /** `s.split(c)`: always at least one piece. */
  function Split(s: string, c: char): (pieces: seq<string>)
    ensures |pieces| >= 1
  {
    if s == [] then [""]
    else
      var rest := Split(s[1..], c);
      if s[0] == c then [""] + rest else [[s[0]] + rest[0]] + rest[1..]
  }

  /** `pieces.join(sep)`. */
  function Join(pieces: seq<string>, sep: string): string {
    if pieces == [] then ""
    else if |pieces| == 1 then pieces[0]
    else pieces[0] + sep + Join(pieces[1..], sep)
  }

  /** `word.charAt(0).toUpperCase() + word.slice(1)`. */
  function Capitalize(word: string): (r: string)
    ensures |r| == |word|
    ensures word != [] ==> r[0] == UpperChar(word[0]) && r[1..] == word[1..]
  {
    if word == [] then [] else [UpperChar(word[0])] + word[1..]
  }

  function CapitalizeAll(pieces: seq<string>): (r: seq<string>)
    ensures |r| == |pieces|
  {
    if pieces == [] then [] else [Capitalize(pieces[0])] + CapitalizeAll(pieces[1..])
  }

  /** The label as the component computes it. */
  function RoleLabel(jobType: string): string {
    Join(CapitalizeAll(Split(jobType, '-')), " ")
  }

  /** The same label computed character by character: a '-' becomes a space,
      and a character is upper-cased when it starts a piece (`atStart` for
      the first character). */
  function Relabel(s: string, atStart: bool): (r: string)
    ensures |r| == |s|
  {
    if s == [] then []
    else if s[0] == '-' then " " + Relabel(s[1..], true)
    else [if atStart then UpperChar(s[0]) else s[0]] + Relabel(s[1..], false)
  }

  /** The pieces with the first one capitalized only when `first` is set. */
  function CapitalizeTail(pieces: seq<string>, first: bool): seq<string> {
    if pieces == [] then []
    else [if first then Capitalize(pieces[0]) else pieces[0]] + CapitalizeAll(pieces[1..])
  }

  function Count(s: string, c: char): nat {
    if s == [] then 0 else (if s[0] == c then 1 else 0) + Count(s[1..], c)
  }

  // ---------------------------------------------------------------------------
  // Properties

  /** Splitting yields one piece more than there are separators, and joining
      the pieces with the separator gives the text back. */
  lemma {:induction false} SplitJoin(s: string, c: char)
    ensures |Split(s, c)| == Count(s, c) + 1
    ensures Join(Split(s, c), [c]) == s
  {
    if s != [] {
      var rest := Split(s[1..], c);
      SplitJoin(s[1..], c);
      if s[0] == c {
        assert Split(s, c)[1..] == rest;
      } else {
        var pieces := Split(s, c);
        assert pieces[1..] == rest[1..];
        if |rest| > 1 {
          assert rest == [rest[0]] + rest[1..];
          assert Join(rest, [c]) == rest[0] + [c] + Join(rest[1..], [c]);
        }
      }
    }
  }

  /** Prepending a character to the first piece prepends it to the join. */
  lemma JoinConsFirst(x: char, w: string, ws: seq<string>, sep: string)
    ensures Join([[x] + w] + ws, sep) == [x] + Join([w] + ws, sep)
  {
    if ws != [] {
      assert ([[x] + w] + ws)[1..] == ws;
      assert ([w] + ws)[1..] == ws;
    }
  }

  lemma {:induction false} JoinCapitalizeTail(s: string, atStart: bool)
    ensures Join(CapitalizeTail(Split(s, '-'), atStart), " ") == Relabel(s, atStart)
  {
    if s != [] {
      var rest := Split(s[1..], '-');
      if s[0] == '-' {
        JoinCapitalizeTail(s[1..], true);
        var caps := CapitalizeTail(Split(s, '-'), atStart);
        assert Split(s, '-') == [""] + rest;
        assert caps == [""] + CapitalizeTail(rest, true);
        assert caps[1..] == CapitalizeTail(rest, true);
      } else {
        JoinCapitalizeTail(s[1..], false);
        var x := if atStart then UpperChar(s[0]) else s[0];
        assert Split(s, '-') == [[s[0]] + rest[0]] + rest[1..];
        assert CapitalizeTail(Split(s, '-'), atStart) == [[x] + rest[0]] + CapitalizeAll(rest[1..]);
        assert CapitalizeTail(rest, false) == [rest[0]] + CapitalizeAll(rest[1..]);
        JoinConsFirst(x, rest[0], CapitalizeAll(rest[1..]), " ");
      }
    }
  }

  /** The component's label equals the character-by-character definition. */
  lemma RoleLabelIsRelabel(jobType: string)
    ensures RoleLabel(jobType) == Relabel(jobType, true)
  {
    var pieces := Split(jobType, '-');
    assert CapitalizeTail(pieces, true) == CapitalizeAll(pieces);
    JoinCapitalizeTail(jobType, true);
  }

  lemma {:induction false} RelabelAt(s: string, atStart: bool, i: nat)
    requires i < |s|
    ensures Relabel(s, atStart)[i] ==
      if s[i] == '-' then ' '
      else if (i == 0 && atStart) || (i > 0 && s[i - 1] == '-') then UpperChar(s[i])
      else s[i]
  {
    if i > 0 {
      RelabelAt(s[1..], s[0] == '-', i - 1);
    }
  }

  /** What the label holds at position `i` of the job type. */
  function LabelCharAt(s: string, i: nat): char
    requires i < |s|
  {
    if s[i] == '-' then ' '
    else if i == 0 || s[i - 1] == '-' then UpperChar(s[i])
    else s[i]
  }

  /** The label has the job type's length; each '-' becomes a space, the
      first character of each piece is upper-cased, and every other
      character is kept. */
  lemma RoleLabelPointwise(jobType: string)
    ensures |RoleLabel(jobType)| == |jobType|
    ensures forall i :: 0 <= i < |jobType| ==> RoleLabel(jobType)[i] == LabelCharAt(jobType, i)
  {
    RoleLabelIsRelabel(jobType);
    forall i | 0 <= i < |jobType|
      ensures RoleLabel(jobType)[i] == LabelCharAt(jobType, i)
    {
      RelabelAt(jobType, true, i);
    }
  }

  /** Without a '-', only the first character changes. */
  lemma {:induction false} RelabelWithoutSeparator(s: string, atStart: bool)
    requires '-' !in s
    ensures Relabel(s, atStart) == if atStart && s != [] then [UpperChar(s[0])] + s[1..] else s
  {
    if s != [] {
      RelabelWithoutSeparator(s[1..], false);
    }
  }

  /** A job type without '-' is one piece: only its first character changes. */
  lemma SinglePieceLabel(jobType: string)
    requires '-' !in jobType
    ensures RoleLabel(jobType) == Capitalize(jobType)
  {
    RoleLabelIsRelabel(jobType);
    RelabelWithoutSeparator(jobType, true);
  }

  /** The form's job types use underscores, so they form a single piece. */
  lemma UnderscoreJobTypeLabel(jobType: string)
    requires jobType == "roof_repair"
    ensures RoleLabel(jobType) == "Roof_repair"
  {
    var a, tail := "roof", "oof_repair";
    assert jobType == a + "_repair";
    assert '-' !in a && '-' !in "_repair";
    SinglePieceLabel(jobType);
    assert jobType == ['r'] + tail;
    assert UpperChar('r') == 'R';
  }
}
