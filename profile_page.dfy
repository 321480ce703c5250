/**
 * The avatar fallback of the profile page: the initials of the user's
 * full name, `name.split(' ').map(n => n[0]).join('').toUpperCase().slice(0, 2)`.
 */
module ProfilePage {
  import opened Common

  /** `s.split(' ')`: the pieces between spaces, empty pieces included, so
      there is always at least one piece and never a space inside one. */
  function Split(s: string): (pieces: seq<string>)
    ensures |pieces| >= 1
    ensures forall p :: p in pieces ==> ' ' !in p
  {
    if s == [] then [[]]
    else
      var rest := Split(s[1..]);
      if s[0] == ' ' then [[]] + rest
      else [[s[0]] + rest[0]] + rest[1..]
  }

  /** `pieces.join(' ')`. */
  function JoinWithSpaces(pieces: seq<string>): string
    requires |pieces| >= 1
  {
    if |pieces| == 1 then pieces[0] else pieces[0] + " " + JoinWithSpaces(pieces[1..])
  }

  /** Splitting loses nothing: joining the pieces back gives the name. */
  lemma {:induction false} SplitJoinRoundTrip(s: string)
    ensures JoinWithSpaces(Split(s)) == s
  {
    if s != [] {
      var rest := Split(s[1..]);
      SplitJoinRoundTrip(s[1..]);
      if s[0] == ' ' {
        assert ([[]] + rest)[1..] == rest;
      } else {
        var pieces := [[s[0]] + rest[0]] + rest[1..];
        if |rest| == 1 {
          assert pieces == [[s[0]] + rest[0]];
        } else {
          assert pieces[1..] == rest[1..];
          assert JoinWithSpaces(rest) == rest[0] + " " + JoinWithSpaces(rest[1..]);
        }
      }
    }
  }

  /** `n[0]` joined with '': the first character of each piece, where an
      empty piece gives `undefined`, which `join` renders as nothing. */
  function FirstChars(pieces: seq<string>): (r: string)
    ensures |r| <= |pieces|
    ensures (forall i :: 0 <= i < |pieces| ==> pieces[i] != []) ==> |r| == |pieces|
    ensures (forall i :: 0 <= i < |pieces| ==> pieces[i] != []) ==>
      forall i :: 0 <= i < |pieces| ==> r[i] == pieces[i][0]
  {
    if pieces == [] then []
    else (if pieces[0] == [] then [] else [pieces[0][0]]) + FirstChars(pieces[1..])
  }

  /** `getInitials`. */
  function Initials(name: string): (r: string)
    ensures |r| <= 2
    ensures forall i :: 0 <= i < |r| ==> !('a' <= r[i] <= 'z')
  {
    Prefix(ToUpper(FirstChars(Split(name))), 2)
  }

  /** The characters that begin a word: not a space, and first in the
      string or right after a space. `atStart` says whether the previous
      character was a space (or there was none). */
  function WordStarts(s: string, atStart: bool): string
  {
    if s == [] then []
    else (if atStart && s[0] != ' ' then [s[0]] else []) + WordStarts(s[1..], s[0] == ' ')
  }

  lemma {:induction false} FirstCharsAreWordStarts(s: string)
    ensures FirstChars(Split(s)) == WordStarts(s, true)
    ensures FirstChars(Split(s)[1..]) == WordStarts(s, false)
  {
    if s != [] {
      var rest := Split(s[1..]);
      FirstCharsAreWordStarts(s[1..]);
      if s[0] == ' ' {
        assert ([[]] + rest)[1..] == rest;
      } else {
        var pieces := [[s[0]] + rest[0]] + rest[1..];
        assert pieces[1..] == rest[1..];
      }
    }
  }

  /** The initials are the first two word-starting characters of the name,
      uppercased: pieces from leading, trailing or repeated spaces add
      nothing. */
  lemma InitialsAreWordStarts(name: string)
    ensures Initials(name) == Prefix(ToUpper(WordStarts(name, true)), 2)
  {
    FirstCharsAreWordStarts(name);
  }

  /** A non-space character anywhere yields at least one word start. */
  lemma {:induction false} NonSpaceStartsWord(s: string, i: nat)
    requires i < |s| && s[i] != ' '
    ensures WordStarts(s, true) != []
  {
    if s[0] == ' ' {
      assert s[1..][i - 1] == s[i];
      NonSpaceStartsWord(s[1..], i - 1);
    }
  }

  /** Spaces alone start no word. */
  lemma {:induction false} SpacesStartNoWord(s: string, atStart: bool)
    requires forall i :: 0 <= i < |s| ==> s[i] == ' '
    ensures WordStarts(s, atStart) == []
  {
    if s != [] {
      SpacesStartNoWord(s[1..], true);
    }
  }

  /** A name has no initials exactly when it has no character other than
      spaces. */
  lemma NoInitialsIffOnlySpaces(name: string)
    ensures Initials(name) == [] <==> forall i :: 0 <= i < |name| ==> name[i] == ' '
  {
    InitialsAreWordStarts(name);
    if forall i :: 0 <= i < |name| ==> name[i] == ' ' {
      SpacesStartNoWord(name, true);
    } else {
      var i :| 0 <= i < |name| && name[i] != ' ';
      NonSpaceStartsWord(name, i);
    }
  }

  lemma InitialsOfJohnDoe()
    ensures Initials("john doe") == "JD"
  {
    InitialsAreWordStarts("john doe");
    WordStartsOfJohnDoe();
    assert ToUpper("jd") == "JD";
  }

  lemma WordStartsOfJohnDoe()
    ensures WordStarts("john doe", true) == "jd"
  {
    var name := "john doe";
    assert name[1..] == "ohn doe" && name[4..] == " doe" && name[5..] == "doe";
    assert WordStarts("doe", true) == "d" + WordStarts("oe", false);
    assert WordStarts("oe", false) == [];
    assert WordStarts("ohn doe", false) == WordStarts(" doe", false);
  }

  lemma InitialsOfThreeWords()
    ensures Initials("a b c") == "AB"
  {
    InitialsAreWordStarts("a b c");
    WordStartsOfThreeWords();
    assert ToUpper("abc") == "ABC";
  }

  lemma WordStartsOfThreeWords()
    ensures WordStarts("a b c", true) == "abc"
  {
    var name := "a b c";
    assert name[1..] == " b c" && name[2..] == "b c" && name[3..] == " c" && name[4..] == "c";
    assert WordStarts("c", true) == "c";
    assert WordStarts(" c", false) == "c";
    assert WordStarts("b c", true) == "bc";
  }

  lemma InitialsOfOneWord()
    ensures Initials("ada") == "A"
  {
    var name := "ada";
    InitialsAreWordStarts(name);
    assert name[1..] == "da" && name[2..] == "a";
    assert WordStarts("a", false) == [];
    assert WordStarts(name, true) == "a";
    assert ToUpper("a") == "A";
  }

  datatype AvatarFallback = InitialsText(text: string) | UserIcon

  /** `profile?.full_name ? getInitials(profile.full_name) : <User/>`: the
      icon stands in when the profile or its name is missing or empty. */
  function Fallback(fullName: Option<string>): (f: AvatarFallback)
    ensures f.UserIcon? <==> fullName.None? || fullName.value == []
    ensures f.InitialsText? ==> f.text == Initials(fullName.value) && |f.text| <= 2
  {
    if fullName.Some? && fullName.value != [] then InitialsText(Initials(fullName.value)) else UserIcon
  }
}
