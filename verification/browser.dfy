/**
 * The parts of the browser the theme store touches: the inline style of the root element
 * (CSS custom properties), the class list of the root element, the style elements of the
 * document head, and `localStorage`. Each is reduced to the operations the store calls.
 */
module Browser {
  import opened Wrappers

  /** A `<style>` element of the document head: its `id` and its `innerHTML`. */
  datatype StyleElement = StyleElement(id: string, innerHtml: string)

  /** `getElementById` over the head: the first element carrying `id`, if any. */
  function FindById(elems: seq<StyleElement>, id: string): (r: Option<nat>)
    ensures r.Some? ==> r.value < |elems| && elems[r.value].id == id
    ensures r.Some? ==> forall j :: 0 <= j < r.value ==> elems[j].id != id
    ensures r.None? <==> forall j :: 0 <= j < |elems| ==> elems[j].id != id
  {
    if elems == [] then None
    else if elems[0].id == id then Some(0)
    else
      match FindById(elems[1..], id)
      case None => None
      case Some(i) => Some(i + 1)
  }

  /** An element carrying `id` with none before it is the one `FindById` finds. */
  lemma {:induction false} FindByIdFirst(elems: seq<StyleElement>, id: string, i: nat)
    requires i < |elems| && elems[i].id == id
    requires forall j :: 0 <= j < i ==> elems[j].id != id
    ensures FindById(elems, id) == Some(i)
  {
    if i > 0 {
      FindByIdFirst(elems[1..], id, i - 1);
    }
  }

  /** How many elements carry `id`. */
  function CountId(elems: seq<StyleElement>, id: string): nat
  {
    if elems == [] then 0
    else (if elems[0].id == id then 1 else 0) + CountId(elems[1..], id)
  }

  lemma {:induction false} CountIdZero(elems: seq<StyleElement>, id: string)
    ensures CountId(elems, id) == 0 <==> FindById(elems, id).None?
  {
    if elems != [] {
      CountIdZero(elems[1..], id);
    }
  }

  /** Appending one element carrying `id` adds one to its count. */
  lemma {:induction false} CountIdAppend(elems: seq<StyleElement>, e: StyleElement, id: string)
    requires e.id == id
    ensures CountId(elems + [e], id) == CountId(elems, id) + 1
  {
    if elems == [] {
      assert elems + [e] == [e];
    } else {
      assert (elems + [e])[1..] == elems[1..] + [e];
      CountIdAppend(elems[1..], e, id);
    }
  }

  /** Replacing an element by one with the same `id` keeps every count. */
  lemma {:induction false} CountIdReplace(elems: seq<StyleElement>, i: nat, e: StyleElement, id: string)
    requires i < |elems| && elems[i].id == e.id
    ensures CountId(elems[i := e], id) == CountId(elems, id)
  {
    if i > 0 {
      assert elems[i := e][1..] == elems[1..][i - 1 := e];
      CountIdReplace(elems[1..], i - 1, e, id);
    }
  }

  class Document {
    /** `document.documentElement.style`: custom property name to value. */
    var rootStyle: map<string, string>
    /** `document.documentElement.classList`. */
    var rootClasses: set<string>
    /** The style elements of `document.head`, in document order. */
    var head: seq<StyleElement>

    constructor (style: map<string, string>, classes: set<string>, elems: seq<StyleElement>)
      ensures rootStyle == style && rootClasses == classes && head == elems
    {
      rootStyle, rootClasses, head := style, classes, elems;
    }

    /** `document.getElementById(id)`, as the index of the element in the head. */
    function GetElementById(id: string): (r: Option<nat>)
      reads this
      ensures r.Some? ==> r.value < |head| && head[r.value].id == id
    {
      FindById(head, id)
    }

    /** `root.style.setProperty(name, value)`. */
    method SetProperty(name: string, value: string)
      modifies this
      ensures rootStyle == old(rootStyle)[name := value]
      ensures rootClasses == old(rootClasses) && head == old(head)
    {
      rootStyle := rootStyle[name := value];
    }

    /** `createElement("style")`, setting its `id`, then `document.head.appendChild`. */
    method AppendStyleElement(id: string) returns (index: nat)
      modifies this
      ensures head == old(head) + [StyleElement(id, "")] && index == |old(head)|
      ensures rootStyle == old(rootStyle) && rootClasses == old(rootClasses)
    {
      head := head + [StyleElement(id, "")];
      index := |head| - 1;
    }

    /** Assigning `innerHTML` of the element at `index`. */
    method SetInnerHtml(index: nat, html: string)
      requires index < |head|
      modifies this
      ensures head == old(head)[index := StyleElement(old(head)[index].id, html)]
      ensures rootStyle == old(rootStyle) && rootClasses == old(rootClasses)
    {
      head := head[index := StyleElement(head[index].id, html)];
    }

    /** `classList.add(c)`. */
    method ClassListAdd(c: string)
      modifies this
      ensures rootClasses == old(rootClasses) + {c}
      ensures rootStyle == old(rootStyle) && head == old(head)
    {
      rootClasses := rootClasses + {c};
    }

    /** `classList.toggle(c)`. */
    method ClassListToggle(c: string)
      modifies this
      ensures rootClasses == Toggled(old(rootClasses), c)
      ensures rootStyle == old(rootStyle) && head == old(head)
    {
      if c in rootClasses {
        rootClasses := rootClasses - {c};
      } else {
        rootClasses := rootClasses + {c};
      }
    }
  }

  /** The class set after `classList.toggle(c)`. */
  function Toggled(classes: set<string>, c: string): (r: set<string>)
    ensures c in r <==> c !in classes
    ensures forall d :: d != c ==> (d in r <==> d in classes)
  {
    if c in classes then classes - {c} else classes + {c}
  }

  /** The value stored under `key`; None stands for the `null` of `getItem`. */
  function Get(items: map<string, string>, key: string): Option<string>
  {
    if key in items then Some(items[key]) else None
  }

  class LocalStorage {
    var items: map<string, string>

    constructor (initial: map<string, string>)
      ensures items == initial
    {
      items := initial;
    }

    /** `localStorage.getItem(key)`. */
    function GetItem(key: string): Option<string>
      reads this
    {
      Get(items, key)
    }

    /** `localStorage.setItem(key, value)`. */
    method SetItem(key: string, value: string)
      modifies this
      ensures items == old(items)[key := value]
    {
      items := items[key := value];
    }
  }
}
