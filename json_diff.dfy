/** A structural diff of two parsed documents, in place of the DeepDiff library:
    objects are compared key by key, arrays position by position, and every
    difference is reported once, at its path, under one of DeepDiff's report
    categories. */
module JsonDiff {
  import opened Wrappers
  import opened Json
  import Text

  /** DeepDiff's report categories that plain JSON can produce. */
  datatype Kind =
    | ValuesChanged
    | TypeChanges
    | DictionaryItemAdded
    | DictionaryItemRemoved
    | IterableItemAdded
    | IterableItemRemoved

  datatype Step = Key(key: string) | Index(index: nat)

  /** One difference: its category and where it is, from the document root. */
  datatype Entry = Entry(kind: Kind, path: seq<Step>)

  predicate SameType(a: Json, b: Json) {
    match a
    case JNull => b.JNull?
    case JBool(_) => b.JBool?
    case JNum(_) => b.JNum?
    case JStr(_) => b.JStr?
    case JArr(_) => b.JArr?
    case JObj(_) => b.JObj?
  }

  /** The differences between a and b found below path. */
  function Diff(path: seq<Step>, a: Json, b: Json): (r: seq<Entry>)
    ensures !SameType(a, b) ==> r == [Entry(TypeChanges, path)]
    ensures SameType(a, b) && !a.JArr? && !a.JObj? ==> r == (if a == b then [] else [Entry(ValuesChanged, path)])
    decreases a, 1, 0
  {
    match a
    case JArr(xs) =>
      if b.JArr? then DiffItems(path, xs, b.items, 0) else [Entry(TypeChanges, path)]
    case JObj(af) =>
      if b.JObj? then DiffFields(path, af, b.fields, 0) + AddedKeys(path, af, b.fields, 0)
      else [Entry(TypeChanges, path)]
    case _ =>
      if a == b then []
      else if SameType(a, b) then [Entry(ValuesChanged, path)]
      else [Entry(TypeChanges, path)]
  }

  /** Positions i.. of two arrays: compared pairwise, extra items of either side reported. */
  function DiffItems(path: seq<Step>, xs: seq<Json>, ys: seq<Json>, i: nat): (r: seq<Entry>)
    decreases JArr(xs), 0, |xs| + |ys| - i
  {
    if i >= |xs| && i >= |ys| then []
    else
      (if i < |xs| && i < |ys| then Diff(path + [Index(i)], xs[i], ys[i])
       else if i < |xs| then [Entry(IterableItemRemoved, path + [Index(i)])]
       else [Entry(IterableItemAdded, path + [Index(i)])])
      + DiffItems(path, xs, ys, i + 1)
  }

  /** Keys of a, from field i on: removed when b lacks them, compared otherwise. */
  function DiffFields(path: seq<Step>, af: seq<Field>, bf: seq<Field>, i: nat): (r: seq<Entry>)
    requires i <= |af|
    decreases JObj(af), 0, |af| - i
  {
    if i == |af| then []
    else
      (if !FirstAt(af, i) then []
       else match IndexOf(bf, af[i].key)
         case None => [Entry(DictionaryItemRemoved, path + [Key(af[i].key)])]
         case Some(j) => Diff(path + [Key(af[i].key)], af[i].value, bf[j].value))
      + DiffFields(path, af, bf, i + 1)
  }

  /** Keys of b, from field j on, that a lacks. */
  function AddedKeys(path: seq<Step>, af: seq<Field>, bf: seq<Field>, j: nat): (r: seq<Entry>)
    requires j <= |bf|
    decreases |bf| - j
  {
    if j == |bf| then []
    else
      (if FirstAt(bf, j) && IndexOf(af, bf[j].key).None?
       then [Entry(DictionaryItemAdded, path + [Key(bf[j].key)])] else [])
      + AddedKeys(path, af, bf, j + 1)
  }

  ghost predicate ItemsEquivFrom(xs: seq<Json>, ys: seq<Json>, i: nat) {
    && (|xs| == |ys| || (|xs| <= i && |ys| <= i))
    && forall k :: i <= k < |xs| && k < |ys| ==> Equiv(xs[k], ys[k])
  }

  ghost predicate FieldsMatchFrom(af: seq<Field>, bf: seq<Field>, i: nat) {
    forall k :: i <= k < |af| && FirstAt(af, k) ==>
      IndexOf(bf, af[k].key).Some? && Equiv(af[k].value, bf[IndexOf(bf, af[k].key).value].value)
  }

  ghost predicate KeysCoveredFrom(af: seq<Field>, bf: seq<Field>, j: nat) {
    forall k :: j <= k < |bf| && FirstAt(bf, k) ==> IndexOf(af, bf[k].key).Some?
  }

  /** The diff is empty exactly when the two documents are equal. */
  lemma {:induction false} DiffEmptyIffEquiv(path: seq<Step>, a: Json, b: Json)
    ensures Diff(path, a, b) == [] <==> Equiv(a, b)
    decreases a, 1, 0
  {
    match a
    case JArr(xs) =>
      if b.JArr? {
        DiffItemsEmptyIff(path, xs, b.items, 0);
      }
    case JObj(af) =>
      if b.JObj? {
        var bf := b.fields;
        DiffFieldsEmptyIff(path, af, bf, 0);
        AddedKeysEmptyIff(path, af, bf, 0);
        if Equiv(a, b) {
          forall k | 0 <= k < |bf| && FirstAt(bf, k) ensures IndexOf(af, bf[k].key).Some? {
            assert IndexOf(bf, bf[k].key).Some?;
          }
          forall k | 0 <= k < |af| && FirstAt(af, k)
            ensures IndexOf(bf, af[k].key).Some? && Equiv(af[k].value, bf[IndexOf(bf, af[k].key).value].value)
          {
            assert IndexOf(af, af[k].key) == Some(k);
          }
        }
        if FieldsMatchFrom(af, bf, 0) && KeysCoveredFrom(af, bf, 0) {
          forall s
            ensures (IndexOf(af, s).None? <==> IndexOf(bf, s).None?)
            ensures IndexOf(af, s).Some? && IndexOf(bf, s).Some? ==>
                      Equiv(af[IndexOf(af, s).value].value, bf[IndexOf(bf, s).value].value)
          {
            match IndexOf(af, s)
            case Some(i) =>
              assert FirstAt(af, i);
            case None =>
          }
        }
      }
    case _ =>
  }

  lemma {:induction false} DiffItemsEmptyIff(path: seq<Step>, xs: seq<Json>, ys: seq<Json>, i: nat)
    ensures DiffItems(path, xs, ys, i) == [] <==> ItemsEquivFrom(xs, ys, i)
    decreases JArr(xs), 0, |xs| + |ys| - i
  {
    if !(i >= |xs| && i >= |ys|) {
      DiffItemsEmptyIff(path, xs, ys, i + 1);
      if i < |xs| && i < |ys| {
        DiffEmptyIffEquiv(path + [Index(i)], xs[i], ys[i]);
      }
    }
  }

  lemma {:induction false} DiffFieldsEmptyIff(path: seq<Step>, af: seq<Field>, bf: seq<Field>, i: nat)
    requires i <= |af|
    ensures DiffFields(path, af, bf, i) == [] <==> FieldsMatchFrom(af, bf, i)
    decreases JObj(af), 0, |af| - i
  {
    if i < |af| {
      DiffFieldsEmptyIff(path, af, bf, i + 1);
      if FirstAt(af, i) {
        match IndexOf(bf, af[i].key)
        case None =>
        case Some(j) =>
          DiffEmptyIffEquiv(path + [Key(af[i].key)], af[i].value, bf[j].value);
      }
    }
  }

  lemma {:induction false} AddedKeysEmptyIff(path: seq<Step>, af: seq<Field>, bf: seq<Field>, j: nat)
    requires j <= |bf|
    ensures AddedKeys(path, af, bf, j) == [] <==> KeysCoveredFrom(af, bf, j)
    decreases |bf| - j
  {
    if j < |bf| {
      AddedKeysEmptyIff(path, af, bf, j + 1);
      var covered := FirstAt(bf, j) ==> IndexOf(af, bf[j].key).Some?;
      assert KeysCoveredFrom(af, bf, j) <==> covered && KeysCoveredFrom(af, bf, j + 1);
      var head := if covered then [] else [Entry(DictionaryItemAdded, path + [Key(bf[j].key)])];
      assert AddedKeys(path, af, bf, j) == head + AddedKeys(path, af, bf, j + 1);
    }
  }

  /** A document never differs from itself. */
  lemma DiffSelfEmpty(path: seq<Step>, a: Json)
    ensures Diff(path, a, a) == []
  {
    EquivReflexive(a);
    DiffEmptyIffEquiv(path, a, a);
  }

  function KindName(k: Kind): string {
    match k
    case ValuesChanged => "values_changed"
    case TypeChanges => "type_changes"
    case DictionaryItemAdded => "dictionary_item_added"
    case DictionaryItemRemoved => "dictionary_item_removed"
    case IterableItemAdded => "iterable_item_added"
    case IterableItemRemoved => "iterable_item_removed"
  }

  function StepText(s: Step): string {
    match s
    case Key(k) => "['" + k + "']"
    case Index(i) => "[" + Text.NatToString(i) + "]"
  }

  /** A path in DeepDiff's notation, such as root['block'][0]['events']. */
  function PathText(path: seq<Step>): (r: string)
    ensures "root" <= r
  {
    if |path| == 0 then "root" else PathText(path[..|path| - 1]) + StepText(path[|path| - 1])
  }
}
