/**
 * The class list component: it keeps the class documents it was given, narrowed to one
 * date when a `dateString` is set, and flattens them into one list item per scheduled
 * time, document by document.
 */
module ClassList {
  import opened Base
  import opened JsValues

  /** A class document: its own fields, and the value of its `active_times` field. */
  datatype ClassDoc = ClassDoc(fields: Record, activeTimes: JsValue)

  /** `props.data`: either an Array of class documents, or anything else. */
  datatype CalendarData = Docs(docs: seq<ClassDoc>) | NotAList

  /** A destructuring pattern `({ key })` throws a TypeError on null and undefined. */
  predicate Destructurable(v: JsValue)
  {
    v != Undef && v != Null
  }

  /** What the pattern `({ key })` reads off a value it does not throw on. */
  function Prop(v: JsValue, key: string): JsValue
  {
    if v.Obj? then Get(v.fields, key) else Undef
  }

  /** The time entries a document lists; a non-list `active_times` lists none. */
  function Times(doc: ClassDoc): seq<JsValue>
  {
    if doc.activeTimes.Arr? then doc.activeTimes.items else []
  }

  /**
   * `doc.active_times.filter(({ dateString }) => …)` and `doc.active_times.forEach(({ … }) => …)`
   * run without a TypeError: the times are a list and none of them is null or undefined.
   */
  predicate Listable(doc: ClassDoc)
  {
    doc.activeTimes.Arr? && forall i :: 0 <= i < |doc.activeTimes.items| ==> Destructurable(doc.activeTimes.items[i])
  }

  predicate AllListable(docs: seq<ClassDoc>)
  {
    forall i :: 0 <= i < |docs| ==> Listable(docs[i])
  }

  /** `dateString === props.dateString` on one time entry. */
  predicate OnDate(entry: JsValue, dateString: string)
  {
    Prop(entry, "dateString") == Str(dateString)
  }

  /** `active_times.filter(({ dateString }) => dateString === props.dateString)`. */
  function TimesOn(times: seq<JsValue>, dateString: string): (r: seq<JsValue>)
    ensures |r| <= |times|
    ensures forall i :: 0 <= i < |r| ==> OnDate(r[i], dateString)
    ensures forall e :: e in r <==> e in times && OnDate(e, dateString)
  {
    if times == [] then []
    else (if OnDate(times[0], dateString) then [times[0]] else []) + TimesOn(times[1..], dateString)
  }

  /** The filter keeps the order of what it keeps: it distributes over concatenation. */
  lemma {:induction false} TimesOnAppend(xs: seq<JsValue>, ys: seq<JsValue>, dateString: string)
    ensures TimesOn(xs + ys, dateString) == TimesOn(xs, dateString) + TimesOn(ys, dateString)
  {
    if xs == [] {
      assert xs + ys == ys;
    } else {
      assert (xs + ys)[1..] == xs[1..] + ys;
      TimesOnAppend(xs[1..], ys, dateString);
    }
  }

  /** `{ ...doc, active_times: <the filtered times> }`. */
  function Narrow(doc: ClassDoc, dateString: string): ClassDoc
  {
    ClassDoc(doc.fields, Arr(TimesOn(Times(doc), dateString)))
  }

  /**
   * A document narrowed to a date lists only objects of that date, so the second effect
   * never throws on what the first one stored.
   */
  lemma NarrowedIsListable(docs: seq<ClassDoc>, dateString: string)
    ensures AllListable(seq(|docs|, i requires 0 <= i < |docs| => Narrow(docs[i], dateString)))
    ensures forall i :: 0 <= i < |docs| ==>
              forall e :: e in Times(Narrow(docs[i], dateString)) ==> e.Obj? && Prop(e, "dateString") == Str(dateString)
  {
  }

  /** One rendered list item: what it shows, its key and what it does when pressed. */
  datatype ListItem = ListItem(date: JsValue, time: JsValue, name: JsValue, instructor: JsValue,
                               key: JsValue, onPress: JsValue, livestreamState: JsValue)

  function ItemFor(doc: ClassDoc, entry: JsValue): ListItem
  {
    ListItem(Prop(entry, "formattedDate"), Prop(entry, "formattedTime"), Get(doc.fields, "name"),
             Get(doc.fields, "instructor"), Prop(entry, "begin_time"), Prop(entry, "onPress"),
             Prop(entry, "livestreamState"))
  }

  /** The items of one document, one per time entry, in order. */
  function DocItems(doc: ClassDoc): (r: seq<ListItem>)
    ensures |r| == |Times(doc)|
    ensures forall j :: 0 <= j < |r| ==> r[j] == ItemFor(doc, Times(doc)[j])
  {
    seq(|Times(doc)|, j requires 0 <= j < |Times(doc)| => ItemFor(doc, Times(doc)[j]))
  }

  /** Every document's items, document after document. */
  function Flatten(docs: seq<ClassDoc>): seq<ListItem>
  {
    if docs == [] then [] else Flatten(docs[..|docs| - 1]) + DocItems(docs[|docs| - 1])
  }

  /** How many items the documents before index `i` contribute. */
  function Offset(docs: seq<ClassDoc>, i: nat): nat
    requires i <= |docs|
  {
    if i == 0 then 0 else Offset(docs, i - 1) + |Times(docs[i - 1])|
  }

  /** There are as many items as (document, time) pairs. */
  lemma {:induction false} FlattenLength(docs: seq<ClassDoc>)
    ensures |Flatten(docs)| == Offset(docs, |docs|)
  {
    if docs != [] {
      var n := |docs| - 1;
      FlattenLength(docs[..n]);
      OffsetPrefix(docs, n);
    }
  }

  /** The j-th time of the i-th document is the item at `Offset(docs, i) + j`: document-major order. */
  lemma {:induction false} FlattenAt(docs: seq<ClassDoc>, i: nat, j: nat)
    requires i < |docs| && j < |Times(docs[i])|
    ensures Offset(docs, i) + j < |Flatten(docs)|
    ensures Flatten(docs)[Offset(docs, i) + j] == DocItems(docs[i])[j]
    decreases |docs|, 1
  {
    if i < |docs| - 1 {
      FlattenAtFront(docs, i, j);
    } else {
      FlattenAtLast(docs, j);
    }
  }

  /** A document before the last one: its items sit where they sit in the prefix. */
  lemma {:induction false} FlattenAtFront(docs: seq<ClassDoc>, i: nat, j: nat)
    requires i < |docs| - 1 && j < |Times(docs[i])|
    ensures Offset(docs, i) + j < |Flatten(docs)|
    ensures Flatten(docs)[Offset(docs, i) + j] == DocItems(docs[i])[j]
    decreases |docs|, 0
  {
    var n := |docs| - 1;
    var front := docs[..n];
    assert front[i] == docs[i];
    FlattenAt(front, i, j);
    OffsetPrefix(docs, i);
    OffsetPrefix(docs, n);
    OffsetMonotone(docs, i + 1, n);
    FlattenLength(front);
    FlattenExtends(docs, Offset(docs, i) + j);
  }

  /** The items of the documents before the last one come first. */
  lemma FlattenExtends(docs: seq<ClassDoc>, k: nat)
    requires |docs| > 0 && k < |Flatten(docs[..|docs| - 1])|
    ensures k < |Flatten(docs)| && Flatten(docs)[k] == Flatten(docs[..|docs| - 1])[k]
  {
  }

  /** The last document's items come after those of all the others. */
  lemma FlattenAtLast(docs: seq<ClassDoc>, j: nat)
    requires |docs| > 0 && j < |Times(docs[|docs| - 1])|
    ensures Offset(docs, |docs| - 1) + j < |Flatten(docs)|
    ensures Flatten(docs)[Offset(docs, |docs| - 1) + j] == DocItems(docs[|docs| - 1])[j]
  {
    var n := |docs| - 1;
    FlattenLength(docs[..n]);
    OffsetPrefix(docs, n);
  }

  /** One item per (document, time) pair, document-major, and no other items. */
  lemma FlattenPairs(docs: seq<ClassDoc>)
    ensures |Flatten(docs)| == Offset(docs, |docs|)
    ensures forall i {:trigger Offset(docs, i)} :: 0 <= i < |docs| ==> Offset(docs, i) + |Times(docs[i])| <= |Flatten(docs)|
    ensures forall i, j {:trigger Times(docs[i])[j]} :: 0 <= i < |docs| && 0 <= j < |Times(docs[i])| ==>
              Flatten(docs)[Offset(docs, i) + j] == ItemFor(docs[i], Times(docs[i])[j])
  {
    FlattenLength(docs);
    FlattenBounds(docs);
    forall i, j | 0 <= i < |docs| && 0 <= j < |Times(docs[i])|
      ensures Flatten(docs)[Offset(docs, i) + j] == ItemFor(docs[i], Times(docs[i])[j])
    {
      FlattenItem(docs, i, j);
    }
  }

  /** `FlattenAt`, with the item spelled out. */
  lemma FlattenItem(docs: seq<ClassDoc>, i: nat, j: nat)
    requires i < |docs| && j < |Times(docs[i])|
    ensures Offset(docs, i) + j < |Flatten(docs)|
    ensures Flatten(docs)[Offset(docs, i) + j] == ItemFor(docs[i], Times(docs[i])[j])
  {
    FlattenAt(docs, i, j);
    var items := DocItems(docs[i]);
    assert items[j] == ItemFor(docs[i], Times(docs[i])[j]);
  }

  /** Each document's items end within the flattening. */
  lemma FlattenBounds(docs: seq<ClassDoc>)
    ensures forall i {:trigger Offset(docs, i)} :: 0 <= i < |docs| ==> Offset(docs, i) + |Times(docs[i])| <= Offset(docs, |docs|)
  {
    forall i | 0 <= i < |docs|
      ensures Offset(docs, i) + |Times(docs[i])| <= Offset(docs, |docs|)
    {
      OffsetMonotone(docs, i + 1, |docs|);
    }
  }

  /** The offsets of a prefix are the offsets of the whole. */
  lemma {:induction false} OffsetPrefix(docs: seq<ClassDoc>, i: nat)
    requires i <= |docs| - 1
    ensures Offset(docs[..|docs| - 1], i) == Offset(docs, i)
  {
    if i > 0 {
      OffsetPrefix(docs, i - 1);
      assert docs[..|docs| - 1][i - 1] == docs[i - 1];
    }
  }

  lemma {:induction false} OffsetMonotone(docs: seq<ClassDoc>, i: nat, k: nat)
    requires i <= k <= |docs|
    ensures Offset(docs, i) <= Offset(docs, k)
    decreases k - i
  {
    if i < k {
      OffsetMonotone(docs, i, k - 1);
    }
  }

  /** The inner `doc.active_times.forEach`: one item per time entry of a listable document. */
  method TimeItems(doc: ClassDoc) returns (r: seq<ListItem>)
    requires Listable(doc)
    ensures r == DocItems(doc)
  {
    var times := doc.activeTimes.items;
    r := [];
    var j := 0;
    while j < |times|
      invariant 0 <= j <= |times|
      invariant r == DocItems(doc)[..j]
    {
      r := r + [ItemFor(doc, times[j])];
      j := j + 1;
    }
  }

  class ClassListView {
    /** The `classes` state (null until the data is a list) and the rendered `Items`. */
    var classes: Option<seq<ClassDoc>>
    var items: seq<ListItem>

    constructor ()
      ensures classes == None && items == []
    {
      classes := None;
      items := [];
    }

    /**
     * The first effect: non-list data changes nothing; with a (truthy) date each document
     * is copied with its times narrowed to that date, otherwise the data is kept as it is.
     * A missing or empty `dateString` is the empty string. `thrown` is the TypeError of a
     * document whose times cannot be filtered, after which `classes` is not set.
     */
    method UpdateClasses(data: CalendarData, dateString: string) returns (thrown: bool)
      modifies this
      ensures items == old(items)
      ensures data.NotAList? ==> !thrown && classes == old(classes)
      ensures data.Docs? && dateString == "" ==> !thrown && classes == Some(data.docs)
      ensures data.Docs? && dateString != "" ==> (thrown <==> !AllListable(data.docs))
      ensures data.Docs? && dateString != "" && thrown ==> classes == old(classes)
      ensures data.Docs? && dateString != "" && !thrown ==>
                && classes.Some? && |classes.value| == |data.docs|
                && forall i :: 0 <= i < |data.docs| ==>
                     && classes.value[i].fields == data.docs[i].fields
                     && classes.value[i].activeTimes == Arr(TimesOn(Times(data.docs[i]), dateString))
    {
      thrown := false;
      if !data.Docs? {
        return;
      }
      if dateString == "" {
        classes := Some(data.docs);
        return;
      }
      var filtered: seq<ClassDoc> := [];
      var i := 0;
      while i < |data.docs|
        invariant 0 <= i <= |data.docs| && |filtered| == i
        invariant forall k :: 0 <= k < i ==> Listable(data.docs[k])
        invariant forall k :: 0 <= k < i ==> filtered[k] == Narrow(data.docs[k], dateString)
      {
        var doc := data.docs[i];
        if !Listable(doc) {
          return true;
        }
        filtered := filtered + [Narrow(doc, dateString)];
        i := i + 1;
      }
      classes := Some(filtered);
    }

    /**
     * The second effect: one item per time entry of each document, in order; a document
     * whose times cannot be walked throws a TypeError and `Items` is not set.
     */
    method BuildItems() returns (thrown: bool)
      modifies this
      ensures classes == old(classes)
      ensures classes.None? ==> !thrown && items == old(items)
      ensures classes.Some? ==> (thrown <==> !AllListable(classes.value))
      ensures classes.Some? && thrown ==> items == old(items)
      ensures classes.Some? && !thrown ==> items == Flatten(classes.value)
    {
      thrown := false;
      if classes.None? {
        return;
      }
      var docs := classes.value;
      var acc: seq<ListItem> := [];
      var i := 0;
      while i < |docs|
        invariant 0 <= i <= |docs|
        invariant classes == old(classes) && items == old(items)
        invariant forall k :: 0 <= k < i ==> Listable(docs[k])
        invariant acc == Flatten(docs[..i])
      {
        var doc := docs[i];
        if !Listable(doc) {
          return true;
        }
        var docItems := TimeItems(doc);
        acc := acc + docItems;
        assert docs[..i + 1][..i] == docs[..i];
        i := i + 1;
      }
      assert docs[..i] == docs;
      items := acc;
    }
  }
}
