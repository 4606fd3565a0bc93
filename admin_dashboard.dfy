/** client/src/components/admin/AdminDashboard.jsx: which tickets the admin
    dashboard shows for the selected status filter and search term, and the
    counts on its statistics cards. */
module AdminDashboard {
  import opened Common
  import opened TicketReducer

  /** `toLowerCase` on one character, for the ASCII letters. */
  function LowerChar(c: char): (d: char)
    ensures 'A' <= c <= 'Z' ==> d as int == c as int + 32
    ensures !('A' <= c <= 'Z') ==> d == c
  {
    if 'A' <= c <= 'Z' then (c as int + 32) as char else c
  }

  /** `toLowerCase`: the same length, each character lowered, and no ASCII
      capital left. */
  function Lower(s: string): (r: string)
    ensures |r| == |s| && forall i :: 0 <= i < |s| ==> r[i] == LowerChar(s[i])
    ensures forall i :: 0 <= i < |r| ==> !('A' <= r[i] <= 'Z')
  {
    seq(|s|, i requires 0 <= i < |s| => LowerChar(s[i]))
  }

  /** `sub` occurs in `s` starting at position `i`. */
  predicate OccursAt(s: string, sub: string, i: nat)
  {
    i + |sub| <= |s| && s[i..i + |sub|] == sub
  }

  /** When `sub` is not a prefix of a non-empty `s`, it occurs in `s` exactly
      when it occurs in the rest of `s`. */
  lemma OccursInRest(s: string, sub: string)
    requires s != [] && !(sub <= s)
    ensures (exists i: nat :: OccursAt(s, sub, i)) <==> (exists i: nat :: OccursAt(s[1..], sub, i))
  {
    if exists i: nat :: OccursAt(s, sub, i) {
      var i: nat :| OccursAt(s, sub, i);
      assert s[1..][i - 1..i - 1 + |sub|] == s[i..i + |sub|];
      assert OccursAt(s[1..], sub, i - 1);
    }
    if exists i: nat :: OccursAt(s[1..], sub, i) {
      var i: nat :| OccursAt(s[1..], sub, i);
      assert s[i + 1..i + 1 + |sub|] == s[1..][i..i + |sub|];
      assert OccursAt(s, sub, i + 1);
    }
  }

  /** `s.includes(sub)`: `sub` occurs at some position of `s`. */
  predicate Includes(s: string, sub: string): (r: bool)
    ensures r <==> exists i: nat :: OccursAt(s, sub, i)
    decreases |s|
  {
    if sub <= s then
      assert OccursAt(s, sub, 0);
      true
    else if s == [] then
      false
    else
      OccursInRest(s, sub);
      Includes(s[1..], sub)
  }

  /** `!filter || ticket.status === filter`. */
  predicate MatchesFilter(t: Ticket, filter: string)
  {
    filter == "" || t.status == filter
  }

  /** `!searchTerm || subject.includes(term) || ticket.user.email.includes(term)`,
      both sides lower-cased: `Some` of its value, or `None` when it throws.
      The email is read only for a non-empty term that the subject does not
      contain, and reading it throws a TypeError when the populated `user` is
      `null`. */
  function MatchesSearch(t: Ticket, term: string): (r: Option<bool>)
    ensures r.None? <==>
              term != "" && !(exists i: nat :: OccursAt(Lower(t.subject), Lower(term), i)) && t.userEmail.None?
    ensures r == Some(true) <==>
              || term == ""
              || (exists i: nat :: OccursAt(Lower(t.subject), Lower(term), i))
              || (t.userEmail.Some? && exists i: nat :: OccursAt(Lower(t.userEmail.value), Lower(term), i))
  {
    if term == "" || Includes(Lower(t.subject), Lower(term)) then Some(true)
    else if t.userEmail.None? then None
    else Some(Includes(Lower(t.userEmail.value), Lower(term)))
  }

  /** The ticket passes the status filter and the search. */
  predicate Shown(t: Ticket, filter: string, term: string)
  {
    MatchesFilter(t, filter) && MatchesSearch(t, term) == Some(true)
  }

  /** The search throws for some ticket of the list. */
  predicate SearchThrows(tickets: seq<Ticket>, term: string)
  {
    exists t :: t in tickets && MatchesSearch(t, term).None?
  }

  /** `filteredTickets`: `None` when the search throws for one of the tickets;
      otherwise every copy of every ticket that passes both checks, and
      nothing else. */
  function FilteredTickets(tickets: seq<Ticket>, filter: string, term: string): (r: Option<seq<Ticket>>)
    ensures r.None? <==> SearchThrows(tickets, term)
    ensures r.Some? ==>
              forall t :: multiset(r.value)[t] == if Shown(t, filter, term) then multiset(tickets)[t] else 0
  {
    if SearchThrows(tickets, term) then None
    else
      FilterCount(tickets, (t: Ticket) => Shown(t, filter, term));
      Some(Filter(tickets, (t: Ticket) => Shown(t, filter, term)))
  }

  /** When the search does not throw, the dashboard shows the tickets, in
      order, that pass both checks. */
  lemma FilteredIsOrderedSelection(tickets: seq<Ticket>, filter: string, term: string)
    ensures FilteredTickets(tickets, filter, term).Some? ==>
            var shown := FilteredTickets(tickets, filter, term).value;
            && IsSubsequence(shown, tickets)
            && (forall t :: t in shown <==> t in tickets && Shown(t, filter, term))
            && (filter != "" ==> forall t :: t in shown ==> t.status == filter)
  {
    var p := (t: Ticket) => Shown(t, filter, term);
    FilterIsSubsequence(tickets, p);
    FilterMembership(tickets, p);
  }

  /** A ticket whose creator is gone breaks every search that its subject
      does not match, whatever the other tickets are. */
  lemma OrphanBreaksSearch(tickets: seq<Ticket>, filter: string, term: string, t: Ticket)
    requires t in tickets && t.userEmail.None?
    requires term != "" && !(exists i: nat :: OccursAt(Lower(t.subject), Lower(term), i))
    ensures FilteredTickets(tickets, filter, term).None?
  {
    assert MatchesSearch(t, term).None?;
  }

  /** With no filter and no search term every ticket is shown. */
  lemma NoCriteriaShowsAll(tickets: seq<Ticket>)
    ensures FilteredTickets(tickets, "", "") == Some(tickets)
  {
    FilterAll(tickets, (t: Ticket) => Shown(t, "", ""));
  }

  /** The search ignores the case of the term: two terms that agree after
      lower-casing show the same tickets. */
  lemma SearchIgnoresCase(tickets: seq<Ticket>, filter: string, t1: string, t2: string)
    requires Lower(t1) == Lower(t2)
    ensures FilteredTickets(tickets, filter, t1) == FilteredTickets(tickets, filter, t2)
  {
    assert (t1 == "") == (t2 == "") by {
      assert |t1| == |Lower(t1)| && |t2| == |Lower(t2)|;
    }
    FilterAgrees(tickets, (t: Ticket) => Shown(t, filter, t1), (t: Ticket) => Shown(t, filter, t2));
  }

  datatype Stats = Stats(total: nat, open: nat, resolved: nat)

  /** `stats`: the list length and the number of open and of resolved tickets. */
  function ComputeStats(tickets: seq<Ticket>): (st: Stats)
    ensures st.total == |tickets|
    ensures st.open + st.resolved <= st.total
    ensures st.open == |Filter(tickets, (t: Ticket) => t.status == "open")|
    ensures st.resolved == |Filter(tickets, (t: Ticket) => t.status == "resolved")|
  {
    var isOpen := (t: Ticket) => t.status == "open";
    var isResolved := (t: Ticket) => t.status == "resolved";
    FilterDisjointCounts(tickets, isOpen, isResolved);
    Stats(|tickets|, |Filter(tickets, isOpen)|, |Filter(tickets, isResolved)|)
  }
}
