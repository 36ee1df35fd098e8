/**
 * Who is in the project right now
 * (WebInterface/src/components/collaboration/PresenceIndicator.jsx): the
 * "N users online" count, up to five avatars with initials and a status dot,
 * a "+N" overflow bubble, and up to three name badges.
 */
module PresenceIndicator {
  import opened Wrappers
  import opened Text
  import opened Seqs
  import opened ProjectsPage

  // ---------------------------------------------------------------- initials

  /** `s.split(' ')`: the pieces between spaces, empty ones included. */
  function SplitSpaces(s: string): (words: seq<string>)
    ensures |words| >= 1
    ensures forall i :: 0 <= i < |words| ==> ' ' !in words[i]
    decreases |s|
  {
    if s == [] then [[]]
    else
      var rest := SplitSpaces(s[1..]);
      if s[0] == ' ' then [[]] + rest else [[s[0]] + rest[0]] + rest[1..]
  }

  /** `words.join(' ')`. */
  function JoinSpaces(words: seq<string>): string
    requires |words| >= 1
    decreases |words|
  {
    if |words| == 1 then words[0] else words[0] + " " + JoinSpaces(words[1..])
  }

  /** Splitting at spaces loses nothing: joining the pieces back gives the name. */
  lemma {:induction false} SplitJoin(s: string)
    ensures JoinSpaces(SplitSpaces(s)) == s
    decreases |s|
  {
    if s != [] {
      SplitJoin(s[1..]);
      var rest := SplitSpaces(s[1..]);
      if s[0] != ' ' {
        var words := SplitSpaces(s);
        assert words[0] == [s[0]] + rest[0];
        if |rest| > 1 {
          assert words[1..] == rest[1..];
        }
      }
    }
  }

  /** `words.map(n => n[0]).join('')`: an empty piece has no first character and adds nothing. */
  function FirstLetters(words: seq<string>): (r: string)
    ensures |r| <= |words|
    decreases |words|
  {
    if words == [] then []
    else (if words[0] == [] then [] else [words[0][0]]) + FirstLetters(words[1..])
  }

  /** `getInitials(name)`. */
  function Initials(name: string): (r: string)
    ensures var letters := FirstLetters(SplitSpaces(name));
      |r| == (if |letters| < 2 then |letters| else 2)
      && forall i :: 0 <= i < |r| ==> r[i] == Upper(letters[i])
  {
    Take(UpperStr(FirstLetters(SplitSpaces(name))), 2)
  }

  /** A name not starting with a space begins its initials with its own first letter, upper-cased. */
  lemma InitialsStartWithName(name: string)
    requires name != [] && name[0] != ' '
    ensures Initials(name) != [] && Initials(name)[0] == Upper(name[0])
  {
    var words := SplitSpaces(name);
    assert words[0] != [] && words[0][0] == name[0];
  }

  /** "Al Bo Cy" gives "AB": one letter per word, no more than two. */
  lemma InitialsExample()
    ensures Initials("al bo cy") == "AB"
  {
    SplitExample();
    LettersExample();
    UpperExample();
  }

  /** The words "al", "bo" and "cy" start with "a", "b" and "c". */
  lemma LettersExample()
    ensures FirstLetters(["al", "bo", "cy"]) == "abc"
  {
    var words := ["al", "bo", "cy"];
    assert FirstLetters(words[2..]) == "c";
    assert FirstLetters(words[1..]) == "bc";
  }

  /** The first two of "abc", upper-cased. */
  lemma UpperExample()
    ensures Take(UpperStr("abc"), 2) == "AB"
  {
    var upper := UpperStr("abc");
    assert Upper('a') == 'A' && Upper('b') == 'B';
    assert Take(upper, 2) == [upper[0], upper[1]];
  }

  /** "al bo cy" splits into its three words. */
  lemma SplitExample()
    ensures SplitSpaces("al bo cy") == ["al", "bo", "cy"]
  {
    assert "y"[1..] == [];
    assert ['y'] + "" == "y";
    assert SplitSpaces("y") == ["y"];
    assert "cy"[1..] == "y";
    assert ['c'] + "y" == "cy";
    assert SplitSpaces("cy") == ["cy"];
    assert " cy"[1..] == "cy";
    assert SplitSpaces(" cy") == ["", "cy"];
    assert "o cy"[1..] == " cy";
    assert ['o'] + "" == "o";
    assert SplitSpaces("o cy") == ["o", "cy"];
    assert "bo cy"[1..] == "o cy";
    assert ['b'] + "o" == "bo";
    assert SplitSpaces("bo cy") == ["bo", "cy"];
    assert " bo cy"[1..] == "bo cy";
    assert SplitSpaces(" bo cy") == ["", "bo", "cy"];
    assert "l bo cy"[1..] == " bo cy";
    assert ['l'] + "" == "l";
    assert SplitSpaces("l bo cy") == ["l", "bo", "cy"];
    assert "al bo cy"[1..] == "l bo cy";
    assert ['a'] + "l" == "al";
  }

  // ---------------------------------------------------------------- status

  /** `getStatusColor`. */
  function StatusColor(status: string): (colour: string)
    ensures colour == "bg-green-500" <==> status == "active"
    ensures colour == "bg-yellow-500" <==> status == "idle"
    ensures colour in {"bg-green-500", "bg-yellow-500", "bg-slate-500"}
  {
    if status == "active" then "bg-green-500"
    else if status == "idle" then "bg-yellow-500"
    else "bg-slate-500"
  }

  predicate IsActive(c: Collaborator) {
    c.status == "active"
  }

  /** `collaborators.filter(c => c.status === 'active')`. */
  function ActiveUsers(collaborators: seq<Collaborator>): (r: seq<Collaborator>)
    ensures |r| <= |collaborators|
    ensures forall i :: 0 <= i < |r| ==> r[i] in collaborators && r[i].status == "active"
    ensures forall i :: 0 <= i < |collaborators| && collaborators[i].status == "active" ==> collaborators[i] in r
  {
    Filter(collaborators, IsActive)
  }

  /** "1 user online", "N users online": the count's digits lead, and the noun is singular only for one. */
  function OnlineLabel(n: nat): (caption: string)
    ensures var k := |Decimal(n)|;
      && k < |caption| && (forall i :: 0 <= i < k ==> IsDigit(caption[i]))
      && DecimalValue(caption[..k]) == n
    ensures n == 1 <==> caption == "1 user online"
  {
    var caption := Decimal(n) + " " + (if n == 1 then "user" else "users") + " online";
    DecimalRoundTrip(n);
    assert caption[..|Decimal(n)|] == Decimal(n);
    caption
  }

  // ---------------------------------------------------------------- the view

  datatype Avatar = Avatar(key: string, initials: string, statusColour: string, viewing: bool)
  datatype NameBadge = NameBadge(name: string, view: Option<string>)
  datatype PresenceView = PresenceView(
    online: string, avatars: seq<Avatar>, overflow: Option<nat>, badges: seq<NameBadge>)

  function AvatarOf(c: Collaborator): Avatar {
    Avatar(c.userEmail, Initials(c.userName), StatusColor(c.status), c.currentView != "")
  }

  function BadgeOf(c: Collaborator): NameBadge {
    NameBadge(c.userName, if c.currentView != "" then Some(c.currentView) else None)
  }

  /** What the indicator renders for a list of collaborators. */
  function Render(collaborators: seq<Collaborator>): (v: PresenceView)
    ensures v.online == OnlineLabel(|ActiveUsers(collaborators)|)
    ensures |v.avatars| == if |collaborators| < 5 then |collaborators| else 5
    ensures |v.badges| <= 3 && |v.badges| <= |collaborators|
    ensures v.overflow.Some? <==> |collaborators| > 5
    ensures v.overflow.Some? ==> |v.avatars| + v.overflow.value == |collaborators|
    ensures forall i :: 0 <= i < |v.avatars| ==> v.avatars[i] == AvatarOf(collaborators[i])
    ensures forall i :: 0 <= i < |v.badges| ==> v.badges[i] == BadgeOf(collaborators[i])
    ensures |collaborators| > 0 ==> |v.badges| == if |collaborators| < 3 then |collaborators| else 3
  {
    var shown := Take(collaborators, 5);
    PresenceView(
      OnlineLabel(|ActiveUsers(collaborators)|),
      seq(|shown|, i requires 0 <= i < |shown| => AvatarOf(shown[i])),
      if |collaborators| > 5 then Some(|collaborators| - 5) else None,
      if |collaborators| > 0 then
        var named := Take(collaborators, 3);
        seq(|named|, i requires 0 <= i < |named| => BadgeOf(named[i]))
      else [])
  }

  /** Everyone in the list is either shown as an avatar or counted in the overflow bubble. */
  lemma EveryoneAccounted(collaborators: seq<Collaborator>)
    ensures var v := Render(collaborators);
      |v.avatars| + (if v.overflow.Some? then v.overflow.value else 0) == |collaborators|
  {
  }
}
