/**
 * Dialog identifiers and the load-marker wrapper of XDialogHelpers.js:
 * `dialogId()` hands out the module-level counter `uniqueDialogId` (starting
 * at 1) and post-increments it; `wrap(id, message = '')` builds the
 * placeholder `<div id="ID__load">MESSAGE</div>` whose element the Android
 * overflow fix later looks up.
 */
module DialogIds {
  import opened JsValues

  /** The ids handed out by the first `n` calls: 1, 2, ..., n. */
  ghost function Issued(n: nat): seq<int>
  {
    if n == 0 then [] else Issued(n - 1) + [n]
  }

  ghost predicate StrictlyIncreasing(s: seq<int>)
  {
    forall i, j :: 0 <= i < j < |s| ==> s[i] < s[j]
  }

  /** The ids handed out so far increase strictly, so none repeats, and
      each lies below the next id to be handed out. */
  lemma {:induction false} IssuedIncreasing(n: nat)
    ensures |Issued(n)| == n
    ensures StrictlyIncreasing(Issued(n))
    ensures forall i :: 0 <= i < n ==> 1 <= Issued(n)[i] <= n
  {
    if n > 0 {
      IssuedIncreasing(n - 1);
      var s := Issued(n - 1);
      assert Issued(n) == s + [n];
      forall i, j | 0 <= i < j < n
        ensures Issued(n)[i] < Issued(n)[j]
      {
        if j < n - 1 {
          assert Issued(n)[i] == s[i] && Issued(n)[j] == s[j];
        } else {
          assert Issued(n)[i] == s[i] <= n - 1;
        }
      }
    }
  }

  /** The module-level counter `uniqueDialogId`. */
  class DialogIdCounter {
    var next: int
    /** Every id returned so far, oldest first. */
    ghost var issued: seq<int>

    ghost predicate Valid()
      reads this
    {
      next >= 1 && issued == Issued(next - 1)
    }

    /** `let uniqueDialogId = 1` at module load. */
    constructor ()
      ensures Valid() && next == 1 && issued == []
    {
      next := 1;
      issued := [];
    }

    /** `return uniqueDialogId++`: the id is one more than the previous
        call's, hence above and distinct from every id issued before. */
    method DialogId() returns (id: int)
      requires Valid()
      modifies this
      ensures Valid()
      ensures id == old(next) && next == id + 1
      ensures issued == old(issued) + [id]
      ensures forall k :: 0 <= k < |old(issued)| ==> old(issued)[k] < id
    {
      IssuedIncreasing(next - 1);
      id := next;
      next := next + 1;
      issued := issued + [id];
    }
  }

  const LoadSuffix: string := "__load"
  const OpenTagStart: string := "<div id=\""
  const OpenTagEnd: string := "\">"
  const CloseTag: string := "</div>"

  /** The id of the placeholder element: `${dialogId}__load`. */
  function LoadId(dialogId: string): (r: string)
    ensures |r| == |dialogId| + 6 && r[..|dialogId|] == dialogId
  {
    dialogId + LoadSuffix
  }

  function OpenTag(dialogId: string): string
  {
    OpenTagStart + LoadId(dialogId) + OpenTagEnd
  }

  /** `wrap(dialogId, message = '')`. The id is taken as the text the
      template literal renders it to. */
  function Wrap(dialogId: string, message: string := ""): (r: string)
    ensures |r| == |OpenTag(dialogId)| + |message| + |CloseTag|
  {
    OpenTag(dialogId) + message + CloseTag
  }

  /** Reads back the message of a placeholder built for `dialogId`. */
  function Unwrap(dialogId: string, html: string): (r: Option<string>)
    ensures r.Some? ==> |r.value| + |OpenTag(dialogId)| + |CloseTag| == |html|
  {
    var open := OpenTag(dialogId);
    if |html| >= |open| + |CloseTag|
       && html[..|open|] == open
       && html[|html| - |CloseTag|..] == CloseTag
    then Some(html[|open|..|html| - |CloseTag|])
    else None
  }

  /** The placeholder hides the message it wraps and nothing else. */
  lemma UnwrapWrap(dialogId: string, message: string)
    ensures Unwrap(dialogId, Wrap(dialogId, message)) == Some(message)
  {
  }

  /** Whatever reads back as a placeholder for `dialogId` is one. */
  lemma WrapUnwrap(dialogId: string, html: string)
    requires Unwrap(dialogId, html).Some?
    ensures Wrap(dialogId, Unwrap(dialogId, html).value) == html
  {
  }

  /** With the message omitted the placeholder is an empty element. */
  lemma WrapDefaultMessage(dialogId: string)
    ensures Unwrap(dialogId, Wrap(dialogId)) == Some("")
    ensures |Wrap(dialogId)| == |dialogId| + 23
  {
    UnwrapWrap(dialogId, "");
  }
}
