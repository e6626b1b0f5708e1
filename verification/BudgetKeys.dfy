/** How budget counters are named, and why no two of them share a name. */
module BudgetKeys {
  import opened BudgetStore

  datatype Scope = TeamScope | KeyScope | UserScope

  function ScopeName(s: Scope): string {
    match s
    case TeamScope => "team"
    case KeyScope => "key"
    case UserScope => "user"
  }

  /** The window's short identifier; `render` prints a rolling window's duration. */
  function Tag(w: Window, render: int -> string): string {
    match w
    case CalDay(_) => "day"
    case CalMonth(_) => "month"
    case Rolling(dur) => "r" + render(dur)
  }

  function Key(scope: Scope, id: string, tag: string): string {
    "budget:" + tag + ":" + ScopeName(scope) + ":" + id
  }

  /** The id half of a user counter's key. */
  function UserId(team: string, user: string): string {
    team + "/" + user
  }

  predicate Free(s: string, c: char) {
    forall i :: 0 <= i < |s| ==> s[i] != c
  }

  /** A separator that neither prefix contains splits a string in one way only. */
  lemma {:induction false} SplitOnce(a: string, x: string, b: string, y: string, c: char)
    requires Free(a, c) && Free(b, c)
    requires a + [c] + x == b + [c] + y
    ensures a == b && x == y
  {
    var l, r := a + [c] + x, b + [c] + y;
    assert l[|a|] == c && r[|b|] == c;
    assert forall i :: 0 <= i < |a| ==> l[i] == a[i] != c;
    assert forall i :: 0 <= i < |b| ==> r[i] == b[i] != c;
    assert |a| == |b|;
    assert a == l[..|a|] == r[..|b|] == b;
    assert x == l[|a| + 1..] == r[|b| + 1..] == y;
  }

  lemma {:induction false} ScopeNames(s1: Scope, s2: Scope)
    ensures Free(ScopeName(s1), ':')
    ensures ScopeName(s1) == ScopeName(s2) ==> s1 == s2
  {
    assert ScopeName(s1)[0] == (match s1 case TeamScope => 't' case KeyScope => 'k' case UserScope => 'u');
    assert ScopeName(s2)[0] == (match s2 case TeamScope => 't' case KeyScope => 'k' case UserScope => 'u');
  }

  lemma {:induction false} KeyParts(scope: Scope, id: string, tag: string)
    ensures Key(scope, id, tag)[7..] == tag + ":" + (ScopeName(scope) + ":" + id)
  {
    hide ScopeName;
    var rest := tag + ":" + (ScopeName(scope) + ":" + id);
    assert Key(scope, id, tag) == "budget:" + rest;
    assert ("budget:" + rest)[7..] == rest;
  }

  /** Window tag, scope and id can be read back from a counter's key, whatever the id contains. */
  lemma {:induction false} KeyInjective(s1: Scope, id1: string, tag1: string, s2: Scope, id2: string, tag2: string)
    requires Free(tag1, ':') && Free(tag2, ':')
    requires Key(s1, id1, tag1) == Key(s2, id2, tag2)
    ensures s1 == s2 && id1 == id2 && tag1 == tag2
  {
    hide Key, ScopeName;
    KeyParts(s1, id1, tag1);
    KeyParts(s2, id2, tag2);
    SplitOnce(tag1, ScopeName(s1) + ":" + id1, tag2, ScopeName(s2) + ":" + id2, ':');
    ScopeNames(s1, s2);
    ScopeNames(s2, s1);
    SplitOnce(ScopeName(s1), id1, ScopeName(s2), id2, ':');
  }

  /** Teams may not contain a slash, so a user counter belongs to one (team, user) pair. */
  lemma {:induction false} UserIdInjective(team1: string, user1: string, team2: string, user2: string)
    requires Free(team1, '/') && Free(team2, '/')
    requires UserId(team1, user1) == UserId(team2, user2)
    ensures team1 == team2 && user1 == user2
  {
    SplitOnce(team1, user1, team2, user2, '/');
  }

  /** The two tags the governor uses are colon-free and tell the windows apart. */
  lemma {:induction false} CalendarTags(render: int -> string, zone: string)
    ensures Free(Tag(CalDay(zone), render), ':') && Free(Tag(CalMonth(zone), render), ':')
    ensures Tag(CalDay(zone), render) != Tag(CalMonth(zone), render)
  {
    assert |Tag(CalDay(zone), render)| == 3 && |Tag(CalMonth(zone), render)| == 5;
  }
}
