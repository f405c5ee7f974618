/**
 * The new-chat page (app/home/chat/new/page.tsx): toggling a knowledge base
 * in the selection, and the guard that decides whether the create-chat
 * request is sent.
 */
module NewChatPage {
  import opened Wrappers
  import opened JsText

  /** No id occurs twice. */
  predicate Distinct(s: seq<string>) {
    forall i, j :: 0 <= i < j < |s| ==> s[i] != s[j]
  }

  /** a occurs in b in order, possibly with gaps. */
  predicate IsSubsequence(a: seq<string>, b: seq<string>) {
    if |a| == 0 then true
    else if |b| == 0 then false
    else if a[0] == b[0] then IsSubsequence(a[1..], b[1..])
    else IsSubsequence(a, b[1..])
  }

  /** `s.filter((kbId) => kbId !== x)`. */
  function RemoveAll(s: seq<string>, x: string): (r: seq<string>)
    ensures x !in r
    ensures forall y :: y != x ==> (y in r <==> y in s)
    ensures multiset(r) == multiset(s)[x := 0]
  {
    if |s| == 0 then []
    else
      var rest := RemoveAll(s[1..], x);
      assert s == [s[0]] + s[1..];
      if s[0] == x then rest else [s[0]] + rest
  }

  /** The filter keeps the surviving ids in their original order. */
  lemma {:induction false} RemoveAllKeepsOrder(s: seq<string>, x: string)
    ensures IsSubsequence(RemoveAll(s, x), s)
  {
    if |s| > 0 {
      RemoveAllKeepsOrder(s[1..], x);
      if s[0] == x {
        SubsequenceOfTail(RemoveAll(s[1..], x), s);
      }
    }
  }

  /** A subsequence of the tail is a subsequence of the whole. */
  lemma {:induction false} SubsequenceOfTail(a: seq<string>, b: seq<string>)
    requires |b| > 0 && IsSubsequence(a, b[1..])
    ensures IsSubsequence(a, b)
    decreases |a| + |b|
  {
    if |a| > 0 && a[0] == b[0] {
      DropHead(a, b[1..]);
    }
  }

  /** Dropping the first element of a subsequence leaves a subsequence. */
  lemma {:induction false} DropHead(a: seq<string>, c: seq<string>)
    requires |a| > 0 && IsSubsequence(a, c)
    ensures IsSubsequence(a[1..], c)
    decreases |a| + |c|
  {
    if a[0] == c[0] {
      SubsequenceOfTail(a[1..], c);
    } else {
      DropHead(a, c[1..]);
      SubsequenceOfTail(a[1..], c);
    }
  }

  /** Removing an id that is not there changes nothing. */
  lemma {:induction false} RemoveAllAbsent(s: seq<string>, x: string)
    requires x !in s
    ensures RemoveAll(s, x) == s
  {
    if |s| > 0 {
      RemoveAllAbsent(s[1..], x);
      assert s == [s[0]] + s[1..];
    }
  }

  /** `toggleKBSelection(id)` applied to the previous selection. */
  function ToggleKbSelection(prev: seq<string>, id: string): (r: seq<string>)
    ensures id in r <==> id !in prev
    ensures forall x :: x != id ==> (x in r <==> x in prev)
    ensures id !in prev ==> r == prev + [id]
    ensures id in prev ==> multiset(r) == multiset(prev)[id := 0]
  {
    if id in prev then RemoveAll(prev, id) else prev + [id]
  }

  /** Deselecting keeps the other ids in their original order. */
  lemma ToggleKeepsOrder(prev: seq<string>, id: string)
    requires id in prev
    ensures IsSubsequence(ToggleKbSelection(prev, id), prev)
  {
    RemoveAllKeepsOrder(prev, id);
  }

  /** Toggling keeps a selection free of duplicates. */
  lemma ToggleKeepsDistinct(prev: seq<string>, id: string)
    requires Distinct(prev)
    ensures Distinct(ToggleKbSelection(prev, id))
  {
    if id in prev { RemoveAllKeepsDistinct(prev, id); }
  }

  lemma {:induction false} RemoveAllKeepsDistinct(s: seq<string>, x: string)
    requires Distinct(s)
    ensures Distinct(RemoveAll(s, x))
  {
    if |s| > 0 {
      RemoveAllKeepsDistinct(s[1..], x);
      assert s[0] !in s[1..];
    }
  }

  /** Selecting an id and deselecting it again restores the selection exactly. */
  lemma ToggleTwiceRestores(prev: seq<string>, id: string)
    requires id !in prev
    ensures ToggleKbSelection(ToggleKbSelection(prev, id), id) == prev
  {
    RemoveAllAbsent(prev, id);
    RemoveAllAppend(prev, id);
  }

  lemma {:induction false} RemoveAllAppend(s: seq<string>, x: string)
    ensures RemoveAll(s + [x], x) == RemoveAll(s, x)
  {
    if |s| == 0 {
      assert s + [x] == [x];
    } else {
      assert (s + [x])[1..] == s[1..] + [x];
      RemoveAllAppend(s[1..], x);
    }
  }

  /** The JSON body posted to /api/createchat. */
  datatype CreateChatBody = CreateChatBody(userId: string, title: string, knowledgeBaseIds: seq<string>)

  /** `handleSubmit`: the request goes out iff a user id is present and the
      title is not blank; the title is sent as typed, and an empty selection
      is allowed. */
  function HandleSubmit(userId: Option<string>, title: string, selected: seq<string>): (r: Option<CreateChatBody>)
    ensures r.Some? <==> userId.Some? && userId.value != "" && exists i :: 0 <= i < |title| && !IsJsWhitespace(title[i])
    ensures r.Some? ==> r.value == CreateChatBody(userId.value, title, selected)
  {
    if userId.None? || userId.value == "" || Trim(title) == "" then None
    else Some(CreateChatBody(userId.value, title, selected))
  }
}
