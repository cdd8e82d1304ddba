/**
 * `getAndroidNavbarHeight(dialogId)` of XDialogHelpers.js: append a
 * zero-width, absolutely positioned `100vh` control element to the body,
 * read the window's inner height and the control's layout height, remove
 * the control again and return the difference, the height of the browser
 * chrome that `100vh` counts but the window does not show.
 */
module NavbarProbe {

  /** A DOM element as far as the probe touches it. */
  class Element {
    const id: string
    var styleHeight: string
    var styleWidth: string
    var stylePosition: string

    /** `document.createElement('div')` followed by `setAttribute('id', id)`. */
    constructor (id: string)
      ensures this.id == id
      ensures styleHeight == "" && styleWidth == "" && stylePosition == ""
    {
      this.id := id;
      styleHeight, styleWidth, stylePosition := "", "", "";
    }
  }

  /** The document: the children of `document.body`, in order, and the
      classes on the body. */
  class Document {
    var body: seq<Element>
    var bodyClasses: set<string>

    constructor (body: seq<Element>, bodyClasses: set<string>)
      ensures this.body == body && this.bodyClasses == bodyClasses
    {
      this.body := body;
      this.bodyClasses := bodyClasses;
    }
  }

  /** The children left after `e.remove()`: `e` is gone and every other
      child stays. */
  function Without(children: seq<Element>, e: Element): (r: seq<Element>)
    ensures e !in r
    ensures forall x :: x in children && x != e ==> x in r
    ensures forall x :: x in r ==> x in children
    ensures e !in children ==> r == children
  {
    if children == [] then []
    else if children[0] == e then Without(children[1..], e)
    else [children[0]] + Without(children[1..], e)
  }

  /** Removing what was just appended gives back the children as they were. */
  lemma {:induction false} RemoveAppended(children: seq<Element>, e: Element)
    requires e !in children
    ensures Without(children + [e], e) == children
    decreases |children|
  {
    if children == [] {
      assert [] + [e] == [e];
      assert Without([e], e) == Without([], e);
    } else {
      assert (children + [e])[1..] == children[1..] + [e];
      RemoveAppended(children[1..], e);
    }
  }

  /** The navbar height: layout height of the `100vh` control minus
      `window.innerHeight`; zero or negative when no chrome is hidden. */
  function NavbarHeight(controlHeight: nat, windowInnerHeight: nat): (h: int)
    ensures h > 0 <==> controlHeight > windowInnerHeight
    ensures h <= controlHeight
    ensures h == 0 <==> controlHeight == windowInnerHeight
  {
    controlHeight - windowInnerHeight
  }

  /** A 690 px high control in a 640 px high window: 50 px of navbar. */
  lemma ProbeScenario()
    ensures NavbarHeight(690, 640) == 50
  {
  }

  /** `controlHeight` and `windowInnerHeight` are the `clientHeight` of the
      control element and `window.innerHeight` as the browser reports them
      while the control is attached. */
  method GetAndroidNavbarHeight(doc: Document, dialogId: string, controlHeight: nat,
                                windowInnerHeight: nat) returns (navbarHeight: int)
    modifies doc`body
    ensures navbarHeight == NavbarHeight(controlHeight, windowInnerHeight)
    ensures doc.body == old(doc.body)
  {
    var control := new Element(dialogId + "_controlHeight");
    control.styleHeight := "100vh";
    control.styleWidth := "0";
    control.stylePosition := "absolute";

    doc.body := doc.body + [control];

    var actualHeight: int := windowInnerHeight;
    var elementHeight: int := controlHeight;
    navbarHeight := elementHeight - actualHeight;

    RemoveAppended(old(doc.body), control);
    doc.body := Without(doc.body, control);
  }
}
