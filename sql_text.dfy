/** What the Express routes of the backend share: request values as
    JavaScript sees them (`undefined`, `null`, booleans, numbers, strings,
    arrays, objects), JavaScript truthiness and the `x || d` default, and the
    SQL text they assemble, whose `?` placeholders must line up with the
    parameter list handed to the driver. */
module SqlText {
  import opened Types
  import opened Seqs

  datatype Value =
    | Undefined
    | Null
    | Bool(b: bool)
    | Num(n: real)
    | Str(s: string)
    | Arr(elems: seq<Value>)
    | Obj(fields: map<string, Value>)

  /** JavaScript truthiness: `undefined`, `null`, `false`, `0` and `''` are falsy;
      every array and object, even an empty one, is truthy. */
  predicate Truthy(v: Value)
  {
    match v
    case Undefined => false
    case Null => false
    case Bool(b) => b
    case Num(n) => n != 0.0
    case Str(s) => s != ""
    case Arr(_) => true
    case Obj(_) => true
  }

  /** `v || d`. */
  function Or(v: Value, d: Value): (r: Value)
    ensures Truthy(v) ==> r == v
    ensures !Truthy(v) ==> r == d
  {
    if Truthy(v) then v else d
  }

  /** `obj[key]` on a parsed request body: a missing key reads as `undefined`. */
  function Get(body: map<string, Value>, key: string): (v: Value)
    ensures key !in body ==> v == Undefined
    ensures key in body ==> v == body[key]
  {
    if key in body then body[key] else Undefined
  }

  /** `v.key`: reading a property of `null` or `undefined` throws (None); any
      other non-object has no such property and gives `undefined`. */
  function Prop(v: Value, key: string): (r: Option<Value>)
    ensures r.None? <==> v == Null || v == Undefined
    ensures v.Obj? ==> r == Some(Get(v.fields, key))
  {
    match v
    case Undefined => None
    case Null => None
    case Obj(fields) => Some(Get(fields, key))
    case _ => Some(Undefined)
  }

  /** A query-string parameter (`req.query.x`): absent, or a string. */
  predicate Given(q: Option<string>)
  {
    q.Some? && q.value != ""
  }

  /** A statement is kept as the fragments the handler concatenates: literal
      text, and the `?` placeholders that the driver fills from the parameter
      list. Text fragments are the literals of the source, none of which
      contains a `?`. */
  datatype Fragment = Text(text: string) | Placeholder

  /** The SQL text sent to the driver. */
  function Render(q: seq<Fragment>): string
  {
    if q == [] then "" else (if q[0].Text? then q[0].text else "?") + Render(q[1..])
  }

  /** The number of `?` placeholders in a statement. */
  function Placeholders(q: seq<Fragment>): nat
  {
    Occurrences(q, Placeholder)
  }

  /** `parts.join(sep)`. */
  function Join(parts: seq<seq<Fragment>>, sep: seq<Fragment>): (r: seq<Fragment>)
    ensures parts == [] ==> r == []
    ensures |parts| == 1 ==> r == parts[0]
    ensures |parts| >= 2 ==> r == parts[0] + sep + Join(parts[1..], sep)
  {
    if parts == [] then []
    else if |parts| == 1 then parts[0]
    else parts[0] + sep + Join(parts[1..], sep)
  }

  /** A separator without placeholders adds none: the joined statement has
      the placeholders of its parts. */
  lemma {:induction false} JoinPlaceholders(parts: seq<seq<Fragment>>, sep: seq<Fragment>)
    requires Placeholder !in sep
    ensures Placeholders(Join(parts, sep)) == SumOf(parts, (q: seq<Fragment>) => Placeholders(q))
  {
    if |parts| == 1 {
      assert parts[1..] == [];
    } else if |parts| > 1 {
      JoinPlaceholders(parts[1..], sep);
      OccurrencesConcat(parts[0] + sep, Join(parts[1..], sep), Placeholder);
      OccurrencesConcat(parts[0], sep, Placeholder);
      OccurrencesAbsent(sep, Placeholder);
    }
  }

  /** Appending a clause adds its placeholders to the statement's. */
  lemma AppendPlaceholders(q: seq<Fragment>, clause: seq<Fragment>)
    ensures Placeholders(q + clause) == Placeholders(q) + Placeholders(clause)
  {
    OccurrencesConcat(q, clause, Placeholder);
  }

  /** A statement containing a clause has at least the clause's placeholders,
      so a statement without placeholders contains no clause that has one. */
  lemma {:induction false} InfixPlaceholders(clause: seq<Fragment>, q: seq<Fragment>, i: nat)
    requires OccursAt(clause, q, i)
    ensures Placeholders(q) >= Placeholders(clause)
  {
    assert q == q[..i] + clause + q[i + |clause|..];
    OccurrencesConcat(q[..i] + clause, q[i + |clause|..], Placeholder);
    OccurrencesConcat(q[..i], clause, Placeholder);
  }

  /** For each placeholder, in order, the text fragment just before it
      (`prev` is the text seen before `q` starts): the column the driver's
      parameter at the same position is compared with or assigned to. */
  function LabelsFrom(q: seq<Fragment>, prev: string): (ls: seq<string>)
    ensures |ls| == Placeholders(q)
  {
    if q == [] then []
    else if q[0].Placeholder? then [prev] + LabelsFrom(q[1..], "")
    else LabelsFrom(q[1..], q[0].text)
  }

  function Labels(q: seq<Fragment>): seq<string>
  {
    LabelsFrom(q, "")
  }

  /** Labels of a concatenation whose second part opens with text. */
  lemma {:induction false} LabelsConcat(a: seq<Fragment>, b: seq<Fragment>, prev: string)
    requires b != [] && b[0].Text?
    ensures LabelsFrom(a + b, prev) == LabelsFrom(a, prev) + Labels(b)
  {
    if a == [] {
      assert a + b == b;
      assert LabelsFrom(b, prev) == LabelsFrom(b[1..], b[0].text) == Labels(b);
    } else {
      assert (a + b)[1..] == a[1..] + b;
      if a[0].Placeholder? {
        LabelsConcat(a[1..], b, "");
      } else {
        LabelsConcat(a[1..], b, a[0].text);
      }
    }
  }

  /** A clause `text ?` binds its one placeholder to `text`. */
  lemma ClauseLabel(text: string)
    ensures Labels([Text(text), Placeholder]) == [text]
    ensures Placeholders([Text(text), Placeholder]) == 1
  {
    assert [Text(text), Placeholder][1..] == [Placeholder];
    assert [Placeholder][1..] == [];
    assert LabelsFrom([Placeholder], text) == [text];
  }

  /** A single text fragment holds no placeholder. */
  lemma TextLabels(text: string)
    ensures Labels([Text(text)]) == [] && Placeholders([Text(text)]) == 0
  {
    assert [Text(text)][1..] == [];
  }

  /** The middle of a concatenation occurs in it. */
  lemma MiddleIsInfix<T>(head: seq<T>, mid: seq<T>, tail: seq<T>)
    ensures OccursAt(mid, head + mid + tail, |head|)
    ensures IsInfix(mid, head + mid + tail)
  {
    assert (head + mid + tail)[|head|..|head| + |mid|] == mid;
    assert OccursAt(mid, head + mid + tail, |head|);
  }
}
