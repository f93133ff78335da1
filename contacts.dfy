/** The contact directory of the content script and the fuzzy addressee resolver
    (extractContacts, findBestMatchingContact). */
module Contacts {
  import opened Wrappers
  import opened Text
  import opened EditDistance

  /** Where a directory entry came from: the chat list, or the member line of a group chat. */
  datatype Source = Roster | GroupMember

  /** A directory entry; the DOM element it was read from is not modelled. */
  datatype Contact = Contact(name: string, source: Source)

  /* ---------- String.prototype.trim and String.prototype.split ---------- */

  /** Index of the first character at or after i that is not whitespace, or |s|. */
  function TrimStartIndex(s: string, i: nat): (a: nat)
    requires i <= |s|
    ensures i <= a <= |s|
    ensures forall k :: i <= k < a ==> IsJsSpace(s[k])
    ensures a == |s| || !IsJsSpace(s[a])
    decreases |s| - i
  {
    if i < |s| && IsJsSpace(s[i]) then TrimStartIndex(s, i + 1) else i
  }

  /** One past the last character before j and at or after lo that is not
      whitespace, or lo. */
  function TrimEndIndex(s: string, lo: nat, j: nat): (b: nat)
    requires lo <= j <= |s|
    ensures lo <= b <= j
    ensures forall k :: b <= k < j ==> IsJsSpace(s[k])
    ensures b == lo || !IsJsSpace(s[b - 1])
    decreases j - lo
  {
    if lo < j && IsJsSpace(s[j - 1]) then TrimEndIndex(s, lo, j - 1) else j
  }

  /** String.prototype.trim: t is the slice of s left after removing whitespace from
      both ends, and it neither starts nor ends with whitespace, so exactly the
      leading and trailing whitespace is gone. */
  function Trim(s: string): (t: string)
    ensures exists a, b :: 0 <= a <= b <= |s| && t == s[a..b]
                           && (forall k :: 0 <= k < a ==> IsJsSpace(s[k]))
                           && (forall k :: b <= k < |s| ==> IsJsSpace(s[k]))
    ensures t == [] || (!IsJsSpace(t[0]) && !IsJsSpace(t[|t| - 1]))
    ensures |t| <= |s|
  {
    var a := TrimStartIndex(s, 0);
    var b := TrimEndIndex(s, a, |s|);
    s[a..b]
  }

  /** String.prototype.split with a one-character separator: never empty, and
      "" splits into [""]. */
  function Split(s: string, sep: char): (parts: seq<string>)
    ensures |parts| >= 1
    ensures forall i :: 0 <= i < |parts| ==> sep !in parts[i]
    decreases |s|
  {
    if s == [] then [[]]
    else
      var rest := Split(s[1..], sep);
      if s[0] == sep then [[]] + rest else [[s[0]] + rest[0]] + rest[1..]
  }

  /** Array.prototype.join, the inverse of Split. */
  function Join(parts: seq<string>, sep: char): string
    requires |parts| >= 1
    decreases |parts|
  {
    if |parts| == 1 then parts[0] else parts[0] + [sep] + Join(parts[1..], sep)
  }

  /** Splitting loses nothing: joining the pieces with the separator gives the text back. */
  lemma {:induction false} JoinSplit(s: string, sep: char)
    ensures Join(Split(s, sep), sep) == s
    decreases |s|
  {
    if s != [] {
      var rest := Split(s[1..], sep);
      JoinSplit(s[1..], sep);
      if s[0] == sep {
        assert Split(s, sep)[1..] == rest;
      } else if |rest| > 1 {
        assert Split(s, sep)[1..] == rest[1..];
      }
    }
  }

  /* ---------- extractContacts ---------- */

  /** The chat-list half of extractContacts: one entry per contact cell that has a
      name element, named by the element's trimmed text. A cell is given here by the
      text of its name element, or None when it has none. */
  function RosterContacts(cells: seq<Option<string>>): (cs: seq<Contact>)
    ensures |cs| <= |cells|
    ensures forall k :: 0 <= k < |cs| ==> cs[k].source == Roster
    decreases |cells|
  {
    if cells == [] then []
    else
      var rest := RosterContacts(cells[1..]);
      assert forall i :: 1 <= i < |cells| ==> cells[i] == cells[1..][i - 1];
      if cells[0].None? then rest
      else
        var entry := RosterEntry(cells[0].value);
        assert forall k :: 1 <= k <= |rest| ==> ([entry] + rest)[k] == rest[k - 1];
        [entry] + rest
  }

  /** The chat list of a concatenation of cells is the concatenation of their chat
      lists: with RosterSingle this fixes RosterContacts as the in-order map of
      RosterEntry over the named cells, which is what map-then-filter(Boolean) gives. */
  lemma {:induction false} RosterContactsAppend(c1: seq<Option<string>>, c2: seq<Option<string>>)
    ensures RosterContacts(c1 + c2) == RosterContacts(c1) + RosterContacts(c2)
    decreases |c1|
  {
    if c1 == [] {
      assert c1 + c2 == c2;
    } else {
      assert (c1 + c2)[0] == c1[0] && (c1 + c2)[1..] == c1[1..] + c2;
      RosterContactsAppend(c1[1..], c2);
    }
  }

  /** A cell without a name element contributes nothing; a named cell contributes its
      trimmed name. */
  lemma RosterSingle(name: string)
    ensures RosterContacts([None]) == []
    ensures RosterContacts([Some(name)]) == [Contact(Trim(name), Roster)]
  {
    var none: Option<string> := None;
    assert [none][1..] == [];
    assert [Some(name)][1..] == [];
  }

  /** The entry for one chat-list cell: its name element's text, trimmed. */
  function RosterEntry(nameText: string): (c: Contact)
    ensures c.source == Roster
  {
    Contact(Trim(nameText), Roster)
  }

  /** The group member line "Name1, Name2, You" split at commas, each piece trimmed:
      one member per comma of the trimmed line, plus one; each the trimmed piece of
      the line between its commas. */
  function GroupMembers(text: string): (members: seq<string>)
    ensures |members| == multiset(Trim(text))[','] + 1 == |Split(Trim(text), ',')|
    ensures forall i :: 0 <= i < |members| ==>
              ',' !in members[i] && members[i] == Trim(Split(Trim(text), ',')[i])
  {
    var parts := Split(Trim(text), ',');
    SplitCount(Trim(text), ',');
    var members := seq(|parts|, i requires 0 <= i < |parts| => Trim(parts[i]));
    forall i | 0 <= i < |members|
      ensures ',' !in members[i]
    {
      TrimInside(parts[i], ',');
    }
    members
  }

  /** Splitting gives one piece more than there are separators. */
  lemma {:induction false} SplitCount(s: string, sep: char)
    ensures |Split(s, sep)| == multiset(s)[sep] + 1
    decreases |s|
  {
    if s != [] {
      SplitCount(s[1..], sep);
      assert s == [s[0]] + s[1..];
      assert multiset(s) == multiset([s[0]]) + multiset(s[1..]);
    }
  }

  /** Trimming keeps only characters of the text. */
  lemma TrimInside(s: string, c: char)
    requires c !in s
    ensures c !in Trim(s)
  {
    var a, b :| 0 <= a <= b <= |s| && Trim(s) == s[a..b];
    assert forall k :: 0 <= k < b - a ==> s[a..b][k] == s[a + k];
  }

  /** contacts.some(contact => contact.name.toLowerCase() === member.toLowerCase()) */
  predicate HasName(contacts: seq<Contact>, member: string)
  {
    exists i | 0 <= i < |contacts| :: ToLower(contacts[i].name) == ToLower(member)
  }

  /** The directory after the members, in order, have been considered for addition:
      "You" is skipped, and a member is appended only if no entry present at that
      point (including members appended earlier) has the same lower-cased name. */
  function Merge(roster: seq<Contact>, members: seq<string>): seq<Contact>
    decreases |members|
  {
    if members == [] then roster
    else
      var prior := Merge(roster, members[..|members| - 1]);
      var member := members[|members| - 1];
      if member == "You" || HasName(prior, member) then prior
      else prior + [Contact(member, GroupMember)]
  }

  /** What the group merge promises: roster entries keep their order and come first;
      every added entry is a group member other than "You" taken from the member list;
      no added entry repeats, ignoring case, the name of any entry before it; and every
      member other than "You" is represented, ignoring case, afterwards. */
  lemma {:induction false} MergeProperties(roster: seq<Contact>, members: seq<string>)
    ensures var r := Merge(roster, members);
      && |r| >= |roster| && r[..|roster|] == roster
      && (forall k :: |roster| <= k < |r| ==>
            r[k].source == GroupMember && r[k].name != "You" && r[k].name in members)
      && (forall k, j :: |roster| <= k < |r| && 0 <= j < k ==>
            ToLower(r[j].name) != ToLower(r[k].name))
      && (forall m :: m in members && m != "You" ==> HasName(r, m))
    decreases |members|
  {
    if members != [] {
      var init := members[..|members| - 1];
      var member := members[|members| - 1];
      assert members == init + [member];
      var prior := Merge(roster, init);
      MergeProperties(roster, init);
      if !(member == "You" || HasName(prior, member)) {
        var r := prior + [Contact(member, GroupMember)];
        assert r[..|roster|] == prior[..|roster|];
        forall m | m in members && m != "You"
          ensures HasName(r, m)
        {
          if m == member {
            assert ToLower(r[|r| - 1].name) == ToLower(m);
          } else {
            assert m in init;
            var i :| 0 <= i < |prior| && ToLower(prior[i].name) == ToLower(m);
            assert r[i] == prior[i];
          }
        }
        forall k, j | |roster| <= k < |r| && 0 <= j < k
          ensures ToLower(r[j].name) != ToLower(r[k].name)
        {
          if k == |r| - 1 {
            assert r[j] == prior[j];
          }
        }
      }
    }
  }

  /** The contact directory the content script keeps in its module-level `contacts`. */
  class ContactDirectory {
    var contacts: seq<Contact>

    constructor ()
      ensures contacts == []
    {
      contacts := [];
    }

    /** extractContacts: rebuild the directory from the chat-list cells, then add the
        members of the open group chat, if its member line is present. */
    method ExtractContacts(rosterCells: seq<Option<string>>, groupMembersText: Option<string>)
      modifies this
      ensures contacts == match groupMembersText
        case None => RosterContacts(rosterCells)
        case Some(text) => Merge(RosterContacts(rosterCells), GroupMembers(text))
    {
      contacts := RosterContacts(rosterCells);
      if groupMembersText.Some? {
        AddGroupMembers(GroupMembers(groupMembersText.value));
      }
    }

    /** The member loop of extractContacts: each member other than "You" whose name,
        ignoring case, is not yet in the directory is appended. */
    method AddGroupMembers(groupMembers: seq<string>)
      modifies this
      ensures contacts == Merge(old(contacts), groupMembers)
    {
      ghost var roster := contacts;
      for i := 0 to |groupMembers|
        invariant contacts == Merge(roster, groupMembers[..i])
      {
        assert groupMembers[..i + 1][..i] == groupMembers[..i];
        var member := groupMembers[i];
        if member == "You" {
          continue;
        }
        var present := HasName(contacts, member);
        if !present {
          contacts := contacts + [Contact(member, GroupMember)];
        }
      }
      assert groupMembers[..|groupMembers|] == groupMembers;
    }
  }

  /* ---------- findBestMatchingContact ---------- */

  /** A similarity score as JavaScript computes it; NaN arises from 0/0 when both
      strings are empty, and compares false with everything. */
  datatype Score = NaN | Num(value: real)

  /** 1 - levenshteinDistance(a, b) / max(|a|, |b|), as an exact rational. */
  function Similarity(a: string, b: string): (s: Score)
    ensures s.Num? <==> (|a| > 0 || |b| > 0)
    ensures s.Num? ==> 0.0 <= s.value <= 1.0
    ensures s.Num? ==> (s.value == 1.0 <==> a == b)
  {
    var longest := Max(|a|, |b|);
    if longest == 0 then NaN
    else
      LevBounds(a, b);
      LevZeroIffEqual(a, b);
      RatioBounds(Lev(a, b), longest);
      Num(1.0 - Lev(a, b) as real / longest as real)
  }

  /** For 0 <= d <= m and m > 0, 1 - d/m lies in [0, 1] and is 1 exactly when d is 0. */
  lemma RatioBounds(d: nat, m: nat)
    requires 0 <= d <= m && m > 0
    ensures 0.0 <= 1.0 - d as real / m as real <= 1.0
    ensures 1.0 - d as real / m as real == 1.0 <==> d == 0
  {
  }

  /** For 0 <= d <= m and m > 0, 1 - d/m exceeds 0.6 exactly when 5 * (m - d) > 3 * m. */
  lemma RatioAboveThreshold(d: nat, m: nat)
    requires 0 <= d <= m && m > 0
    ensures 1.0 - d as real / m as real > 0.6 <==> 5 * (m - d) > 3 * m
  {
    QuotientBelow(d, m, 0.4);
    assert d as real < 0.4 * m as real <==> 5 * d < 2 * m;
  }

  /** d/m < c exactly when d < c * m, for positive m. */
  lemma QuotientBelow(d: nat, m: nat, c: real)
    requires m > 0
    ensures d as real / m as real < c <==> d as real < c * m as real
  {
    var q, mr := d as real / m as real, m as real;
    assert q * mr == d as real;
    ScaleLess(q, c, mr);
  }

  lemma ScaleLess(x: real, y: real, k: real)
    requires k > 0.0
    ensures x < y <==> x * k < y * k
  {
  }

  /** The score of a contact against an already lower-cased addressee. */
  function ScoreOf(addressee: string, contact: Contact): Score
  {
    Similarity(addressee, ToLower(contact.name))
  }

  /** `score > highestScore` in the source: NaN never wins. */
  predicate Beats(s: Score, highest: real)
  {
    s.Num? && s.value > highest
  }

  /** The state of the loop: the index of bestMatch and highestScore. */
  datatype Pick = Pick(index: Option<nat>, highest: real)

  /** The loop of findBestMatchingContact over a prefix of the directory, starting from
      bestMatch = null and highestScore = 0 and replacing them on a strictly higher score. */
  function Scan(addressee: string, contacts: seq<Contact>): (p: Pick)
    ensures p.index.Some? ==> p.index.value < |contacts|
    decreases |contacts|
  {
    if contacts == [] then Pick(None, 0.0)
    else
      var k := |contacts| - 1;
      var prior := Scan(addressee, contacts[..k]);
      var score := ScoreOf(addressee, contacts[k]);
      if Beats(score, prior.highest) then Pick(Some(k), score.value) else prior
  }

  /** Contact i has a score, no contact scores higher, and no earlier contact scores the same. */
  predicate IsFirstBest(addressee: string, contacts: seq<Contact>, i: int)
  {
    && 0 <= i < |contacts|
    && ScoreOf(addressee, contacts[i]).Num?
    && (forall j :: 0 <= j < |contacts| ==> !Beats(ScoreOf(addressee, contacts[j]), ScoreOf(addressee, contacts[i]).value))
    && (forall j :: 0 <= j < i ==> ScoreOf(addressee, contacts[j]) != ScoreOf(addressee, contacts[i]))
  }

  /** The loop keeps the first contact with the strictly highest positive score, and keeps
      nothing when no contact scores above zero. */
  lemma {:induction false} ScanIsFirstBest(addressee: string, contacts: seq<Contact>)
    ensures var p := Scan(addressee, contacts);
      && 0.0 <= p.highest <= 1.0
      && (p.index.None? ==>
            (p.highest == 0.0 &&
             forall j :: 0 <= j < |contacts| ==> !Beats(ScoreOf(addressee, contacts[j]), 0.0)))
      && (p.index.Some? ==>
            (p.highest > 0.0 && IsFirstBest(addressee, contacts, p.index.value) &&
             ScoreOf(addressee, contacts[p.index.value]) == Num(p.highest)))
    decreases |contacts|
  {
    if contacts != [] {
      var k := |contacts| - 1;
      var init := contacts[..k];
      ScanIsFirstBest(addressee, init);
      assert forall j :: 0 <= j < k ==> contacts[j] == init[j];
    }
  }

  /** Two contacts that are both first-best are the same contact. */
  lemma FirstBestUnique(addressee: string, contacts: seq<Contact>, i: int, i': int)
    requires IsFirstBest(addressee, contacts, i) && IsFirstBest(addressee, contacts, i')
    ensures i == i'
  {
  }

  /** The index of the contact findBestMatchingContact returns, if any. */
  function ChosenIndex(contacts: seq<Contact>, addressee: string): (r: Option<nat>)
    ensures r.Some? ==> r.value < |contacts|
  {
    if |contacts| == 0 then None
    else
      var p := Scan(ToLower(addressee), contacts);
      if p.highest > 0.6 then p.index else None
  }

  /** The result of findBestMatchingContact: the original-cased name of the chosen contact. */
  function BestMatch(contacts: seq<Contact>, addressee: string): (r: Option<string>)
    ensures contacts == [] ==> r == None
    ensures r.Some? ==> exists i :: 0 <= i < |contacts| && contacts[i].name == r.value
  {
    match ChosenIndex(contacts, addressee)
    case None => None
    case Some(i) => Some(contacts[i].name)
  }

  /** The result is the name of the first contact with the highest score, exactly when
      that score is above 0.6, and null otherwise. */
  lemma BestMatchIsFirstBestAboveThreshold(contacts: seq<Contact>, addressee: string)
    ensures var a := ToLower(addressee);
      && (ChosenIndex(contacts, addressee).Some? ==>
            var i := ChosenIndex(contacts, addressee).value;
            IsFirstBest(a, contacts, i) && ScoreOf(a, contacts[i]).value > 0.6)
      && (forall i :: IsFirstBest(a, contacts, i) && ScoreOf(a, contacts[i]).value > 0.6 ==>
            ChosenIndex(contacts, addressee) == Some(i))
  {
    var a := ToLower(addressee);
    ScanIsFirstBest(a, contacts);
    forall i | IsFirstBest(a, contacts, i) && ScoreOf(a, contacts[i]).value > 0.6
      ensures ChosenIndex(contacts, addressee) == Some(i)
    {
      var p := Scan(a, contacts);
      if p.index.None? {
        assert Beats(ScoreOf(a, contacts[i]), 0.0);
      } else {
        FirstBestUnique(a, contacts, i, p.index.value);
      }
    }
  }

  /** A non-empty addressee equal, ignoring case, to some contact's name always matches:
      the first such contact is chosen. */
  lemma ExactMatchIsChosen(contacts: seq<Contact>, addressee: string, k: nat)
    requires addressee != []
    requires k < |contacts| && ToLower(contacts[k].name) == ToLower(addressee)
    requires forall j :: 0 <= j < k ==> ToLower(contacts[j].name) != ToLower(addressee)
    ensures BestMatch(contacts, addressee) == Some(contacts[k].name)
  {
    var a := ToLower(addressee);
    assert ScoreOf(a, contacts[k]) == Num(1.0);
    assert IsFirstBest(a, contacts, k);
    BestMatchIsFirstBestAboveThreshold(contacts, addressee);
  }

  /** An empty addressee never matches: every score is 0 or NaN. */
  lemma EmptyAddresseeNeverMatches(contacts: seq<Contact>)
    ensures BestMatch(contacts, "") == None
  {
    assert ToLower("") == [];
    EmptyAddresseeScoresZero(contacts);
  }

  /** Against the empty addressee no score rises above the initial 0. */
  lemma {:induction false} EmptyAddresseeScoresZero(contacts: seq<Contact>)
    ensures Scan([], contacts).highest == 0.0
    decreases |contacts|
  {
    if contacts != [] {
      var k := |contacts| - 1;
      EmptyAddresseeScoresZero(contacts[..k]);
      LevEmpty(ToLower(contacts[k].name));
    }
  }

  /** Matching ignores case: re-casing the addressee or any contact name does not change
      which contact is chosen. */
  lemma {:induction false} ScanIgnoresCase(a1: string, a2: string, c1: seq<Contact>, c2: seq<Contact>)
    requires ToLower(a1) == ToLower(a2) && |c1| == |c2|
    requires forall i :: 0 <= i < |c1| ==> ToLower(c1[i].name) == ToLower(c2[i].name)
    ensures Scan(ToLower(a1), c1) == Scan(ToLower(a2), c2)
    decreases |c1|
  {
    if c1 != [] {
      var k := |c1| - 1;
      ScanIgnoresCase(a1, a2, c1[..k], c2[..k]);
    }
  }

  lemma ChosenIndexIgnoresCase(a1: string, a2: string, c1: seq<Contact>, c2: seq<Contact>)
    requires ToLower(a1) == ToLower(a2) && |c1| == |c2|
    requires forall i :: 0 <= i < |c1| ==> ToLower(c1[i].name) == ToLower(c2[i].name)
    ensures ChosenIndex(c1, a1) == ChosenIndex(c2, a2)
  {
    ScanIgnoresCase(a1, a2, c1, c2);
  }

  /** The threshold test `score > 0.6` in integers: with d the distance and m the longer
      length, 1 - d/m > 0.6 exactly when 5 * (m - d) > 3 * m. */
  lemma ThresholdInIntegers(a: string, b: string)
    requires |a| > 0 || |b| > 0
    ensures var m := Max(|a|, |b|);
      Lev(a, b) <= m && (Similarity(a, b).value > 0.6 <==> 5 * (m - Lev(a, b)) > 3 * m)
  {
    LevBounds(a, b);
    RatioAboveThreshold(Lev(a, b), Max(|a|, |b|));
  }

  /** findBestMatchingContact, over the directory snapshot it reads. */
  method FindBestMatchingContact(contacts: seq<Contact>, addressee: string) returns (r: Option<string>)
    ensures r == BestMatch(contacts, addressee)
  {
    if |contacts| == 0 {
      return None;
    }
    var normalizedAddressee := ToLower(addressee);
    var bestMatch: Option<string> := None;
    var highestScore: real := 0.0;
    for k := 0 to |contacts|
      invariant highestScore == Scan(normalizedAddressee, contacts[..k]).highest
      invariant bestMatch == match Scan(normalizedAddressee, contacts[..k]).index
        case None => None
        case Some(i) => Some(contacts[i].name)
    {
      assert contacts[..k + 1][..k] == contacts[..k];
      var contactName := ToLower(contacts[k].name);
      var distance := LevenshteinDistance(normalizedAddressee, contactName);
      var longest := Max(|normalizedAddressee|, |contactName|);
      var score := if longest == 0 then NaN else Num(1.0 - distance as real / longest as real);
      if score.Num? && score.value > highestScore {
        highestScore := score.value;
        bestMatch := Some(contacts[k].name);
      }
    }
    assert contacts[..|contacts|] == contacts;
    r := if highestScore > 0.6 then bestMatch else None;
  }
}
