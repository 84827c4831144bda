/** Rendering of remote objects as text: object and array previews (`formatObject`,
    `formatArray`), a `Runtime.getProperties` result (`formatDetailedObject`) and the
    fallback chain `parseRuntimeConsole` applies to one console-API argument. */
module ObjectFormat {
  import opened Wrappers
  import opened Strings
  import opened Protocol

  // ---------------------------------------------------------------------------
  // Object previews

  /** The `name: value` items of the first `n` properties of a preview; a nested
      preview is rendered in place of the raw value. */
  function PreviewEntries(pv: ObjectPreview, n: nat): (entries: seq<string>)
    requires pv.Preview? && n <= |pv.properties|
    ensures |entries| == n
    decreases pv, 0, n
  {
    if n == 0 then []
    else
      var p := pv.properties[n - 1];
      PreviewEntries(pv, n - 1) + [p.name + ": " + ElementText(p)]
  }

  /** The text `formatObject` builds for a preview. */
  function PreviewText(pv: ObjectPreview): string
    decreases pv, 1
  {
    match pv
    case PreviewWithoutProperties => "{}"
    case Preview(ps) => "{" + Join(PreviewEntries(pv, |ps|), ", ") + "}"
  }

  /** `formatObject`: writes `{`, the items separated by `, `, and `}` into a builder,
      recursing into nested previews. */
  method FormatObject(preview: ObjectPreview) returns (text: string)
    ensures text == PreviewText(preview)
    decreases preview, 1
  {
    var items := "";
    if preview.Preview? {
      var properties := preview.properties;
      var i := 0;
      while i < |properties|
        invariant 0 <= i <= |properties|
        invariant items == Join(PreviewEntries(preview, i), ", ")
      {
        var item := FormatPreviewItem(preview, i);
        JoinSnoc(PreviewEntries(preview, i), item, ", ");
        if i > 0 {
          items := items + ", ";
        }
        items := items + item;
        i := i + 1;
      }
    }
    text := "{" + items + "}";
  }

  /** The item `formatObject` writes for property `i`: `name: ` and the value, or the
      nested preview's text in its place. */
  method FormatPreviewItem(preview: ObjectPreview, i: nat) returns (item: string)
    requires preview.Preview? && i < |preview.properties|
    ensures PreviewEntries(preview, i + 1) == PreviewEntries(preview, i) + [item]
    decreases preview, 0
  {
    var prop := preview.properties[i];
    var value := prop.value;
    if prop.valuePreview.Some? {
      value := FormatObject(prop.valuePreview.value);
    }
    item := prop.name + ": " + value;
  }

  /** How `formatArray` shows one element: its nested preview, or its raw value. */
  function ElementText(p: PropertyPreview): string
    decreases p
  {
    match p.valuePreview
    case Some(v) => PreviewText(v)
    case None => p.value
  }

  /** The items `formatArray` writes, one `ElementText` per element. */
  function ArrayEntries(pv: ObjectPreview, n: nat): (entries: seq<string>)
    requires pv.Preview? && n <= |pv.properties|
    ensures |entries| == n
  {
    if n == 0 then []
    else
      var p := pv.properties[n - 1];
      ArrayEntries(pv, n - 1) + [ElementText(p)]
  }

  /** The text `formatArray` builds for a preview. */
  function ArrayText(pv: ObjectPreview): string
  {
    match pv
    case PreviewWithoutProperties => "[]"
    case Preview(ps) => "[" + Join(ArrayEntries(pv, |ps|), ", ") + "]"
  }

  /** `formatArray`: `[`, the elements separated by `, `, and `]`. */
  method FormatArray(preview: ObjectPreview) returns (text: string)
    ensures text == ArrayText(preview)
  {
    var items := "";
    if preview.Preview? {
      var properties := preview.properties;
      var i := 0;
      while i < |properties|
        invariant 0 <= i <= |properties|
        invariant items == Join(ArrayEntries(preview, i), ", ")
      {
        var prop := properties[i];
        var item;
        if prop.valuePreview.Some? {
          item := FormatObject(prop.valuePreview.value);
        } else {
          item := prop.value;
        }
        assert ArrayEntries(preview, i + 1) == ArrayEntries(preview, i) + [item];
        JoinSnoc(ArrayEntries(preview, i), item, ", ");
        if i > 0 {
          items := items + ", ";
        }
        items := items + item;
        i := i + 1;
      }
    }
    text := "[" + items + "]";
  }

  // ---------------------------------------------------------------------------
  // Nesting: every preview in the tree contributes exactly one pair of braces

  /** No brace in `s`. */
  predicate Plain(s: string)
  {
    Occurrences(s, '{') == 0 && Occurrences(s, '}') == 0
  }

  /** The names and raw values a preview tree renders contain no braces. */
  predicate PlainPreview(pv: ObjectPreview)
    decreases pv, 1
  {
    pv.Preview? ==> PlainProperties(pv, |pv.properties|)
  }

  predicate PlainProperties(pv: ObjectPreview, n: nat)
    requires pv.Preview? && n <= |pv.properties|
    decreases pv, 0, n
  {
    n == 0 ||
    (PlainProperties(pv, n - 1) &&
     var p := pv.properties[n - 1];
     Plain(p.name) && match p.valuePreview case Some(v) => PlainPreview(v) case None => Plain(p.value))
  }

  /** Number of previews in a preview tree, the root included. */
  function PreviewCount(pv: ObjectPreview): nat
    decreases pv, 1
  {
    1 + (if pv.Preview? then NestedCount(pv, |pv.properties|) else 0)
  }

  /** Number of previews nested under the first `n` properties. */
  function NestedCount(pv: ObjectPreview, n: nat): nat
    requires pv.Preview? && n <= |pv.properties|
    decreases pv, 0, n
  {
    if n == 0 then 0
    else
      NestedCount(pv, n - 1)
        + match pv.properties[n - 1].valuePreview case Some(v) => PreviewCount(v) case None => 0
  }

  lemma {:induction false} ConcatOccurrences(a: string, b: string, c: string, ch: char)
    ensures Occurrences(a + b + c, ch) == Occurrences(a, ch) + Occurrences(b, ch) + Occurrences(c, ch)
  {
    assert multiset(a + b + c) == multiset(a) + multiset(b) + multiset(c);
  }

  /** With brace-free names and values, `formatObject`'s text holds one `{` and one `}`
      per preview in the tree: every nested preview is rendered, once, inside its parent. */
  lemma {:induction false} PreviewBraces(pv: ObjectPreview)
    requires PlainPreview(pv)
    ensures Occurrences(PreviewText(pv), '{') == PreviewCount(pv)
    ensures Occurrences(PreviewText(pv), '}') == PreviewCount(pv)
    decreases pv, 1
  {
    if pv.Preview? {
      var entries := PreviewEntries(pv, |pv.properties|);
      ElementsCounted(pv, |pv.properties|);
      EntriesBraces(pv, |pv.properties|);
      BracesInCommaSpace();
      BracesInOpenBrace();
      BracesInCloseBrace();
      JoinOccurrences(entries, ", ", '{');
      JoinOccurrences(entries, ", ", '}');
      ConcatOccurrences("{", Join(entries, ", "), "}", '{');
      ConcatOccurrences("{", Join(entries, ", "), "}", '}');
    }
  }

  /** The shown text of a property holds one brace pair per preview it contributes. */
  predicate ElementCounted(p: PropertyPreview)
  {
    Occurrences(ElementText(p), '{') == ElementCount(p) && Occurrences(ElementText(p), '}') == ElementCount(p)
  }

  /** The first `n` properties have brace-free names and counted shown texts. */
  predicate EntriesCounted(pv: ObjectPreview, n: nat)
    requires pv.Preview? && n <= |pv.properties|
  {
    n == 0 ||
    (EntriesCounted(pv, n - 1) && Plain(pv.properties[n - 1].name) && ElementCounted(pv.properties[n - 1]))
  }

  lemma {:induction false} ElementsCounted(pv: ObjectPreview, n: nat)
    requires pv.Preview? && n <= |pv.properties| && PlainProperties(pv, n)
    ensures EntriesCounted(pv, n)
    decreases pv, 0, n
  {
    if n > 0 {
      ElementsCounted(pv, n - 1);
      var p := pv.properties[n - 1];
      if p.valuePreview.Some? {
        PreviewBraces(p.valuePreview.value);
      }
    }
  }

  lemma EntryStep(pv: ObjectPreview, n: nat)
    requires pv.Preview? && 0 < n <= |pv.properties|
    ensures PreviewEntries(pv, n)
         == PreviewEntries(pv, n - 1) + [pv.properties[n - 1].name + ": " + ElementText(pv.properties[n - 1])]
    ensures NestedCount(pv, n) == NestedCount(pv, n - 1) + ElementCount(pv.properties[n - 1])
  {
  }

  lemma {:induction false} EntriesBraces(pv: ObjectPreview, n: nat)
    requires pv.Preview? && n <= |pv.properties|
    requires EntriesCounted(pv, n)
    ensures OccurrencesIn(PreviewEntries(pv, n), '{') == NestedCount(pv, n)
    ensures OccurrencesIn(PreviewEntries(pv, n), '}') == NestedCount(pv, n)
  {
    if n > 0 {
      EntriesBraces(pv, n - 1);
      EntryBraces(pv, n, '{');
      EntryBraces(pv, n, '}');
    } else {
      assert PreviewEntries(pv, 0) == [] && NestedCount(pv, 0) == 0;
    }
  }

  /** One more counted property adds its previews' braces to the items' count. */
  lemma EntryBraces(pv: ObjectPreview, n: nat, ch: char)
    requires pv.Preview? && 0 < n <= |pv.properties|
    requires ch == '{' || ch == '}'
    requires Plain(pv.properties[n - 1].name) && ElementCounted(pv.properties[n - 1])
    requires OccurrencesIn(PreviewEntries(pv, n - 1), ch) == NestedCount(pv, n - 1)
    ensures OccurrencesIn(PreviewEntries(pv, n), ch) == NestedCount(pv, n)
  {
    var p := pv.properties[n - 1];
    var entry := p.name + ": " + ElementText(p);
    LabelledBraces(p.name, ElementText(p));
    assert Occurrences(entry, ch) == ElementCount(p);
    EntryStep(pv, n);
    OccurrencesInSnoc(PreviewEntries(pv, n - 1), entry, ch);
    assert OccurrencesIn(PreviewEntries(pv, n), ch) == OccurrencesIn(PreviewEntries(pv, n - 1), ch) + ElementCount(p);
  }

  /** The fixed punctuation the formatters write, and the braces in it. */
  lemma BracesInColonSpace()
    ensures Occurrences(": ", '{') == 0 && Occurrences(": ", '}') == 0
  {
  }

  lemma BracesInCommaSpace()
    ensures Occurrences(", ", '{') == 0 && Occurrences(", ", '}') == 0
  {
  }

  lemma BracesInColonQuote()
    ensures Occurrences(": \"", '{') == 0 && Occurrences(": \"", '}') == 0
  {
  }

  lemma BracesInQuote()
    ensures Occurrences("\"", '{') == 0 && Occurrences("\"", '}') == 0
  {
  }

  lemma BracesInNullWord()
    ensures Occurrences("null", '{') == 0 && Occurrences("null", '}') == 0
  {
  }

  lemma BracesInUndefinedWord()
    ensures Occurrences("undefined", '{') == 0 && Occurrences("undefined", '}') == 0
  {
  }

  lemma BracesInArrayEllipsis()
    ensures Occurrences("[...]", '{') == 0 && Occurrences("[...]", '}') == 0
  {
  }

  lemma BracesInObjectEllipsis()
    ensures Occurrences("{...}", '{') == 1 && Occurrences("{...}", '}') == 1
  {
  }

  lemma BracesInOpenBracket()
    ensures Occurrences("[", '{') == 0 && Occurrences("[", '}') == 0
  {
  }

  lemma BracesInCloseBracket()
    ensures Occurrences("]", '{') == 0 && Occurrences("]", '}') == 0
  {
  }

  lemma BracesInOpenBrace()
    ensures Occurrences("{", '{') == 1 && Occurrences("{", '}') == 0
  {
  }

  lemma BracesInCloseBrace()
    ensures Occurrences("}", '{') == 0 && Occurrences("}", '}') == 1
  {
  }

  /** With brace-free raw values, `formatArray`'s text holds exactly the braces of the
      element previews it renders: the brackets add none. */
  lemma {:induction false} ArrayBraces(pv: ObjectPreview)
    requires pv.Preview?
    requires forall i :: 0 <= i < |pv.properties| ==> PlainElement(pv.properties[i])
    ensures Occurrences(ArrayText(pv), '{') == NestedCount(pv, |pv.properties|)
    ensures Occurrences(ArrayText(pv), '}') == NestedCount(pv, |pv.properties|)
  {
    var entries := ArrayEntries(pv, |pv.properties|);
    ArrayEntriesBraces(pv, |pv.properties|);
    BracesInCommaSpace();
    BracesInOpenBracket();
    BracesInCloseBracket();
    JoinOccurrences(entries, ", ", '{');
    JoinOccurrences(entries, ", ", '}');
    ConcatOccurrences("[", Join(entries, ", "), "]", '{');
    ConcatOccurrences("[", Join(entries, ", "), "]", '}');
  }

  lemma {:induction false} ArrayEntriesBraces(pv: ObjectPreview, n: nat)
    requires pv.Preview? && n <= |pv.properties|
    requires forall i :: 0 <= i < n ==> PlainElement(pv.properties[i])
    ensures OccurrencesIn(ArrayEntries(pv, n), '{') == NestedCount(pv, n)
    ensures OccurrencesIn(ArrayEntries(pv, n), '}') == NestedCount(pv, n)
  {
    if n > 0 {
      ArrayEntriesBraces(pv, n - 1);
      var p := pv.properties[n - 1];
      ElementBraces(p);
      var entries := ArrayEntries(pv, n);
      assert entries[..n - 1] == ArrayEntries(pv, n - 1);
      assert entries[n - 1] == ElementText(p);
      assert NestedCount(pv, n) == NestedCount(pv, n - 1) + ElementCount(p);
    }
  }

  /** An element whose raw value, or nested preview tree, contains no brace of its own. */
  predicate PlainElement(p: PropertyPreview)
  {
    match p.valuePreview
    case Some(v) => PlainPreview(v)
    case None => Plain(p.value)
  }

  /** Previews an element contributes: its nested tree, or none. */
  function ElementCount(p: PropertyPreview): nat
  {
    match p.valuePreview
    case Some(v) => PreviewCount(v)
    case None => 0
  }

  /** A plain element's text holds one brace pair per preview it shows. */
  lemma ElementBraces(p: PropertyPreview)
    requires PlainElement(p)
    ensures Occurrences(ElementText(p), '{') == ElementCount(p)
    ensures Occurrences(ElementText(p), '}') == ElementCount(p)
  {
    if p.valuePreview.Some? {
      PreviewBraces(p.valuePreview.value);
    }
  }

  // ---------------------------------------------------------------------------
  // Runtime.getProperties results

  /** The item `formatDetailedObject` writes for one property: `name: ` and the rendered
      value; a property whose value is not an object writes nothing (its separator is
      still written). */
  function DetailedEntry(d: PropertyDescriptor): string
  {
    match d.value
    case None => ""
    case Some(v) => d.name + ": " + DetailedTail(v)
  }

  /** The part of a detailed item after `name: `: strings quoted, numbers and booleans
      raw, objects abbreviated by subtype, anything else by its description. */
  function DetailedTail(v: RemoteObject): string
  {
    if v.kind == "string" then "\"" + FormatS(v.value) + "\""
    else if v.kind == "number" || v.kind == "boolean" then FormatV(v.value)
    else if v.kind == "object" then
      if v.subtype == Some("null") then "null"
      else if v.subtype == Some("array") then "[...]"
      else "{...}"
    else
      match v.description
      case Some(desc) => desc
      case None => "undefined"
  }

  function DetailedEntries(ds: seq<PropertyDescriptor>): (entries: seq<string>)
    ensures |entries| == |ds|
  {
    if |ds| == 0 then [] else DetailedEntries(ds[..|ds| - 1]) + [DetailedEntry(ds[|ds| - 1])]
  }

  /** The text `formatDetailedObject` builds; `None` stands for a nil map. */
  function DetailedText(props: Option<PropertiesResult>): string
  {
    match props
    case None => "[object Object]"
    case Some(PropertiesWithoutList) => "{}"
    case Some(Properties(ds)) => "{" + Join(DetailedEntries(ds), ", ") + "}"
  }

  /** The item `formatDetailedObject` writes for one property. */
  method FormatDetailedItem(prop: PropertyDescriptor) returns (item: string)
    ensures item == DetailedEntry(prop)
  {
    item := "";
    if prop.value.Some? {
      var value := prop.value.value;
      var tail;
      if value.kind == "string" {
        tail := "\"" + FormatS(value.value) + "\"";
      } else if value.kind == "number" || value.kind == "boolean" {
        tail := FormatV(value.value);
      } else if value.kind == "object" {
        if value.subtype.Some? {
          if value.subtype.value == "null" {
            tail := "null";
          } else if value.subtype.value == "array" {
            tail := "[...]";
          } else {
            tail := "{...}";
          }
        } else {
          tail := "{...}";
        }
      } else if value.description.Some? {
        tail := value.description.value;
      } else {
        tail := "undefined";
      }
      assert tail == DetailedTail(value);
      item := prop.name + ": " + tail;
    }
  }

  lemma DetailedEntriesSnoc(ds: seq<PropertyDescriptor>, i: nat)
    requires i < |ds|
    ensures DetailedEntries(ds[..i + 1]) == DetailedEntries(ds[..i]) + [DetailedEntry(ds[i])]
  {
    assert ds[..i + 1][..i] == ds[..i];
  }

  /** `formatDetailedObject`: one item per property, objects shown one level deep only. */
  method FormatDetailedObject(props: Option<PropertiesResult>) returns (text: string)
    ensures text == DetailedText(props)
  {
    if props.None? {
      return "[object Object]";
    }
    var items := "";
    if props.value.Properties? {
      var result := props.value.result;
      var i := 0;
      while i < |result|
        invariant 0 <= i <= |result|
        invariant items == Join(DetailedEntries(result[..i]), ", ")
      {
        var item := FormatDetailedItem(result[i]);
        DetailedEntriesSnoc(result, i);
        JoinSnoc(DetailedEntries(result[..i]), item, ", ");
        if i > 0 {
          items := items + ", ";
        }
        items := items + item;
        i := i + 1;
      }
      assert result[..i] == result;
    }
    text := "{" + items + "}";
  }

  /** A property value that `formatDetailedObject` abbreviates as `{...}`. */
  predicate ShownAsObject(d: PropertyDescriptor)
  {
    d.value.Some? && d.value.value.kind == "object"
    && d.value.value.subtype != Some("null") && d.value.value.subtype != Some("array")
  }

  function ObjectValued(ds: seq<PropertyDescriptor>): nat
  {
    if |ds| == 0 then 0 else ObjectValued(ds[..|ds| - 1]) + (if ShownAsObject(ds[|ds| - 1]) then 1 else 0)
  }

  /** The texts a property contributes besides the fixed punctuation contain no brace. */
  predicate PlainDescriptor(d: PropertyDescriptor)
  {
    Plain(d.name)
    && (d.value.Some? ==> Plain(FormatS(d.value.value.value)) && Plain(FormatV(d.value.value.value)))
    && (d.value.Some? && d.value.value.description.Some? ==> Plain(d.value.value.description.value))
  }

  /** Braces in `name: tail` are those of the name and of the tail. */
  lemma LabelledBraces(name: string, tail: string)
    ensures Occurrences(name + ": " + tail, '{') == Occurrences(name, '{') + Occurrences(tail, '{')
    ensures Occurrences(name + ": " + tail, '}') == Occurrences(name, '}') + Occurrences(tail, '}')
  {
    BracesInColonSpace();
    ConcatOccurrences(name, ": ", tail, '{');
    ConcatOccurrences(name, ": ", tail, '}');
  }

  lemma DetailedTailBraces(d: PropertyDescriptor)
    requires PlainDescriptor(d) && d.value.Some?
    ensures Occurrences(DetailedTail(d.value.value), '{') == if ShownAsObject(d) then 1 else 0
    ensures Occurrences(DetailedTail(d.value.value), '}') == if ShownAsObject(d) then 1 else 0
  {
    var v := d.value.value;
    if v.kind == "string" {
      assert DetailedTail(v) == "\"" + FormatS(v.value) + "\"";
      BracesInQuote();
      ConcatOccurrences("\"", FormatS(v.value), "\"", '{');
      ConcatOccurrences("\"", FormatS(v.value), "\"", '}');
    } else if v.kind == "number" || v.kind == "boolean" {
      assert DetailedTail(v) == FormatV(v.value);
    } else if v.kind == "object" {
      ObjectTailBraces(v);
    } else {
      assert DetailedTail(v) == match v.description case Some(desc) => desc case None => "undefined";
      BracesInUndefinedWord();
    }
  }

  lemma ObjectTailBraces(v: RemoteObject)
    requires v.kind == "object"
    ensures Occurrences(DetailedTail(v), '{') == if v.subtype != Some("null") && v.subtype != Some("array") then 1 else 0
    ensures Occurrences(DetailedTail(v), '}') == if v.subtype != Some("null") && v.subtype != Some("array") then 1 else 0
  {
    if v.subtype == Some("null") {
      BracesInNullWord();
    } else if v.subtype == Some("array") {
      BracesInArrayEllipsis();
    } else {
      BracesInObjectEllipsis();
    }
  }

  lemma DetailedEntryBraces(d: PropertyDescriptor)
    requires PlainDescriptor(d)
    ensures Occurrences(DetailedEntry(d), '{') == if ShownAsObject(d) then 1 else 0
    ensures Occurrences(DetailedEntry(d), '}') == if ShownAsObject(d) then 1 else 0
  {
    if d.value.Some? {
      DetailedTailBraces(d);
      LabelledBraces(d.name, DetailedTail(d.value.value));
    }
  }

  lemma {:induction false} DetailedEntriesBraces(ds: seq<PropertyDescriptor>)
    requires forall i :: 0 <= i < |ds| ==> PlainDescriptor(ds[i])
    ensures OccurrencesIn(DetailedEntries(ds), '{') == ObjectValued(ds)
    ensures OccurrencesIn(DetailedEntries(ds), '}') == ObjectValued(ds)
  {
    if |ds| > 0 {
      var init := ds[..|ds| - 1];
      DetailedEntriesBraces(init);
      DetailedEntryBraces(ds[|ds| - 1]);
      assert DetailedEntries(ds)[..|ds| - 1] == DetailedEntries(init);
    }
  }

  /** With brace-free names, values and descriptions, the detailed text holds one pair of
      braces around the whole and one more `{...}` per object-valued property: nested
      objects are abbreviated, never expanded. */
  lemma DetailedBraces(ds: seq<PropertyDescriptor>)
    requires forall i :: 0 <= i < |ds| ==> PlainDescriptor(ds[i])
    ensures Occurrences(DetailedText(Some(Properties(ds))), '{') == 1 + ObjectValued(ds)
    ensures Occurrences(DetailedText(Some(Properties(ds))), '}') == 1 + ObjectValued(ds)
  {
    var entries := DetailedEntries(ds);
    DetailedEntriesBraces(ds);
    BracesInCommaSpace();
    BracesInOpenBrace();
    BracesInCloseBrace();
    JoinOccurrences(entries, ", ", '{');
    JoinOccurrences(entries, ", ", '}');
    ConcatOccurrences("{", Join(entries, ", "), "}", '{');
    ConcatOccurrences("{", Join(entries, ", "), "}", '}');
  }

  // ---------------------------------------------------------------------------
  // One console-API argument

  /** How `parseRuntimeConsole` renders one argument. `fetch` stands for the
      `Runtime.getProperties` round trip on an object handle: `None` when it yields nothing. */
  function ArgText(arg: RemoteObject, fetch: string -> Option<PropertiesResult>): string
  {
    if arg.kind == "string" || arg.kind == "number" || arg.kind == "boolean" then
      match arg.value case Some(v) => v case None => ""
    else if arg.kind == "object" then
      if arg.subtype == Some("null") then "null"
      else
        match arg.objectId
        case Some(id) =>
          (match fetch(id)
           case Some(props) => DetailedText(Some(props))
           case None => match arg.preview case Some(p) => PreviewText(p) case None => "[object Object]")
        case None =>
          (match arg.preview
           case Some(p) => PreviewText(p)
           case None => match arg.description case Some(d) => d case None => "")
    else ""
  }
}
