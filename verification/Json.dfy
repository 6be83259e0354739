/** JSON values as trees, addressed by paths. */
module Json {
  import opened Prelude

  datatype Json =
    | Null
    | Bool(truth: bool)
    | Number(digits: string)
    | Str(text: string)
    | Arr(items: seq<Json>)
    | Obj(fields: map<string, Json>)

  /** Value::get with a key: only objects have fields. */
  function Field(j: Json, key: string): Option<Json> {
    if j.Obj? && key in j.fields then Some(j.fields[key]) else None
  }

  /** Map::insert on an object. */
  function Put(j: Json, key: string, value: Json): Json
    requires j.Obj?
  {
    Obj(j.fields[key := value])
  }

  datatype Step = Key(key: string) | Index(index: nat)

  type Path = seq<Step>

  function Child(j: Json, s: Step): Option<Json> {
    match s
    case Key(k) => Field(j, k)
    case Index(i) => if j.Arr? && i < |j.items| then Some(j.items[i]) else None
  }

  /** The value at a path, if there is one. */
  function At(j: Json, p: Path): Option<Json>
    decreases |p|
  {
    if p == [] then Some(j)
    else match Child(j, p[0])
      case None => None
      case Some(c) => At(c, p[1..])
  }

  /** A value without what is below it. */
  function Label(j: Json): Json {
    match j
    case Arr(_) => Arr([])
    case Obj(_) => Obj(map[])
    case _ => j
  }

  function LabelAt(j: Json, p: Path): Option<Json> {
    match At(j, p)
    case None => None
    case Some(v) => Some(Label(v))
  }

  ghost predicate SameLabels(a: Json, b: Json) {
    forall p: Path :: LabelAt(a, p) == LabelAt(b, p)
  }

  lemma ChildLabels(a: Json, b: Json, s: Step)
    requires SameLabels(a, b)
    ensures Child(a, s).Some? <==> Child(b, s).Some?
    ensures Child(a, s).Some? ==> SameLabels(Child(a, s).value, Child(b, s).value)
  {
    assert LabelAt(a, [s]) == LabelAt(b, [s]);
    AtOne(a, s);
    AtOne(b, s);
    if Child(a, s).Some? {
      forall p: Path ensures LabelAt(Child(a, s).value, p) == LabelAt(Child(b, s).value, p) {
        assert ([s] + p)[1..] == p;
        assert LabelAt(a, [s] + p) == LabelAt(b, [s] + p);
      }
    }
  }

  lemma AtOne(j: Json, s: Step)
    ensures At(j, [s]) == Child(j, s)
  {
    assert [s][1..] == [];
  }

  /** Trees with the same label at every path are the same tree. */
  lemma {:induction false} LabelsDecide(a: Json, b: Json)
    requires SameLabels(a, b)
    ensures a == b
    decreases a
  {
    assert LabelAt(a, []) == LabelAt(b, []);
    match a {
      case Obj(fields) =>
        assert b.Obj?;
        forall k ensures k in fields <==> k in b.fields {
          ChildLabels(a, b, Key(k));
        }
        forall k | k in fields ensures fields[k] == b.fields[k] {
          ChildLabels(a, b, Key(k));
          LabelsDecide(fields[k], b.fields[k]);
        }
        assert fields == b.fields;
      case Arr(items) =>
        assert b.Arr?;
        SameLength(a, b);
        forall i | 0 <= i < |items| ensures items[i] == b.items[i] {
          ChildLabels(a, b, Index(i));
          LabelsDecide(items[i], b.items[i]);
        }
        assert items == b.items;
      case _ =>
    }
  }

  lemma SameLength(a: Json, b: Json)
    requires SameLabels(a, b) && a.Arr? && b.Arr?
    ensures |a.items| == |b.items|
  {
    ChildLabels(a, b, Index(|a.items|));
    ChildLabels(a, b, Index(|b.items|));
  }
}
