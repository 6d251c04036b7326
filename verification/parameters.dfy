/** Parameter translation: an operation's parameter list becomes a holder STRUCT named `<name>Parameters`. */
module Parameters {
  import opened Wrappers
  import opened OpenApiV2
  import opened Surface
  import opened Collaborators
  import opened TypeInference
  import opened Seqs

  /** The items that carry a parameter (not a reference), in order. */
  function CarriedParameters(items: seq<ParametersItem>): (ps: seq<ParametersItem>)
    ensures |ps| <= |items|
    ensures forall i :: 0 <= i < |ps| ==> ps[i].ParameterItem?
    ensures forall p :: p in ps ==> p in items
    ensures forall i :: 0 <= i < |items| && items[i].ParameterItem? ==> items[i] in ps
  {
    if items == [] then []
    else (if items[0].ParameterItem? then [items[0]] else []) + CarriedParameters(items[1..])
  }

  /** The selection is a filter: a single item is kept exactly when it carries
      a parameter, and a concatenated list selects the concatenated selections,
      so order and multiplicity are preserved. */
  lemma {:induction false} CarriedParametersFilter(a: seq<ParametersItem>, b: seq<ParametersItem>)
    ensures |a| == 1 ==> CarriedParameters(a) == (if a[0].ParameterItem? then a else [])
    ensures CarriedParameters(a + b) == CarriedParameters(a) + CarriedParameters(b)
  {
    if a == [] {
      assert a + b == b;
    } else {
      var h, t := (if a[0].ParameterItem? then [a[0]] else []), a[1..];
      assert CarriedParameters(a) == h + CarriedParameters(t);
      assert CarriedParameters(a + b) == h + CarriedParameters(t + b) by {
        assert (a + b)[0] == a[0];
        assert (a + b)[1..] == t + b;
      }
      CarriedParametersFilter(t, b);
      AppendAssoc(h, CarriedParameters(t), CarriedParameters(b));
      if |a| == 1 {
        assert t == [];
      }
    }
  }

  /** The field one parameter becomes. The type starts as the item's dump and
      is overwritten by every parameter that declares one. */
  function ParameterField(e: Env, item: ParametersItem): (f: Field)
    requires item.ParameterItem?
    ensures f.serialize && f.valueType == ""
    ensures item.parameter.BodyParam? ==>
              && f.name == item.parameter.body.name
              && f.position == Body
              && f.format == ""
              && f.typeName == (if item.parameter.body.schema.Some?
                                then TypeForSchema(e, item.parameter.body.schema.value)
                                else e.dumpParametersItem(item))
    ensures item.parameter.NonBodyParam? ==>
              && f.name == item.parameter.nonBody.sub.name
              && f.typeName == item.parameter.nonBody.sub.typeName
              && f.format == (if item.parameter.nonBody.PathParam? then item.parameter.nonBody.sub.format else "")
    ensures f.position == Header <==> item.parameter.NonBodyParam? && item.parameter.nonBody.HeaderParam?
    ensures f.position == FormData <==> item.parameter.NonBodyParam? && item.parameter.nonBody.FormDataParam?
    ensures f.position == Query <==> item.parameter.NonBodyParam? && item.parameter.nonBody.QueryParam?
    ensures f.position == Path <==> item.parameter.NonBodyParam? && item.parameter.nonBody.PathParam?
  {
    var f := Field("", e.dumpParametersItem(item), "", "", Unpositioned, false);
    var f := match item.parameter
      case BodyParam(b) =>
        f.(name := b.name,
           typeName := if b.schema.Some? then TypeForSchema(e, b.schema.value) else f.typeName,
           position := Body)
      case NonBodyParam(nb) =>
        match nb
        case HeaderParam(p) => f.(name := p.name, typeName := p.typeName, position := Header)
        case FormDataParam(p) => f.(name := p.name, typeName := p.typeName, position := FormData)
        case QueryParam(p) => f.(name := p.name, typeName := p.typeName, position := Query)
        case PathParam(p) => f.(name := p.name, typeName := p.typeName, format := p.format, position := Path);
    f.(serialize := true)
  }

  /** The holder's fields: exactly one per item carrying a parameter, in order. */
  function ParameterFields(e: Env, items: seq<ParametersItem>): (fs: seq<Field>)
    ensures |fs| == |CarriedParameters(items)|
    ensures forall i :: 0 <= i < |fs| ==> fs[i] == ParameterField(e, CarriedParameters(items)[i])
    ensures fs == [] <==> forall i :: 0 <= i < |items| ==> items[i].ReferenceItem?
  {
    if items == [] then []
    else
      (if items[0].ParameterItem? then [ParameterField(e, items[0])] else [])
      + ParameterFields(e, items[1..])
  }

  /** Each item contributes to the holder independently of its neighbours. */
  lemma {:induction false} ParameterFieldsAppend(e: Env, a: seq<ParametersItem>, b: seq<ParametersItem>)
    ensures ParameterFields(e, a + b) == ParameterFields(e, a) + ParameterFields(e, b)
  {
    if a == [] {
      assert a + b == b;
    } else {
      assert (a + b)[1..] == a[1..] + b;
      ParameterFieldsAppend(e, a[1..], b);
    }
  }

  /** Registers the holder type and returns its name, or registers nothing and
      returns "" when no item carries a parameter. */
  function BuildTypeFromParameters(e: Env, m: Model, name: string, items: seq<ParametersItem>)
    : (r: (string, Model))
    ensures r.1.name == m.name && r.1.methods == m.methods
    ensures r.0 == "" <==> forall i :: 0 <= i < |items| ==> items[i].ReferenceItem?
    ensures r.0 == "" ==> r.1 == m
    ensures r.0 != "" ==>
              && r.0 == name + "Parameters"
              && r.1.types == m.types + [Type(r.0, r.0 + " holds parameters to " + name, Struct,
                                              ParameterFields(e, items), "")]
              && |ParameterFields(e, items)| > 0
  {
    var t := Type(name + "Parameters", name + "Parameters" + " holds parameters to " + name, Struct,
                  ParameterFields(e, items), "");
    if |t.fields| > 0 then (t.name, AddType(m, t)) else ("", m)
  }
}
