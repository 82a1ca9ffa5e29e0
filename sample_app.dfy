/**
 * The sample app's adapter and holders as input records, and what the
 * generator produces for them.
 */
module SampleApp {
  import opened Wrappers
  import opened Declarations
  import opened Extensions
  import opened TagNamer
  import opened RoleResolver

  /** The sample's role annotations, rendered as `@Name`. */
  const BIND_PREFIX := Annotation("BindPrefix", "@BindPrefix")
  const BIND_SUFIX := Annotation("BindSufix", "@BindSufix")
  const COMPLEX_TYPE := Annotation("ComplexType", "@ComplexType")
  const BIND_LISTENER := Annotation("BindListener", "@BindListener")

  function Param(name: string, annotations: seq<Annotation>, typeText: string, unresolved: bool): Parameter {
    Parameter(Some(name), annotations, typeText, unresolved)
  }

  /** MyAdapter's constructor parameters. */
  function AdapterParameters(): seq<Parameter> {
    [ Param("diffCallback", [], "DiffUtil.ItemCallback<String>", false),
      Param("prefix", [BIND_PREFIX], "String", false),
      Param("sufix", [BIND_SUFIX], "String", false),
      Param("complexObj", [COMPLEX_TYPE], "List<List<Map<Int, String>>>?", false),
      Param("listener", [BIND_LISTENER], "(String) -> Unit", false) ]
  }

  /** MyViewHolder1's constructor and bind function. */
  function Holder1Constructor(): seq<Parameter> {
    [ Param("binding", [], "AdapterHolder1Binding", true),
      Param("tag", [BIND_PREFIX], "String", false) ]
  }

  function Holder1Bind(): seq<Parameter> {
    [ Param("data", [], "String", false),
      Param("listener", [BIND_LISTENER], "(String) -> Unit", false) ]
  }

  /** MyViewHolder2's constructor and bind function. */
  function Holder2Constructor(): seq<Parameter> {
    [ Param("listener", [BIND_LISTENER], "(String) -> Unit", false),
      Param("binding", [], "AdapterHolder2Binding", true) ]
  }

  function Holder2Bind(): seq<Parameter> {
    [ Param("tag", [BIND_SUFIX], "String", false),
      Param("data", [], "String", false) ]
  }

  /** The adapter's map sends each annotation text to the name of the parameter carrying it. */
  lemma AdapterMap()
    ensures var m := Grouped(AdapterParameters());
      && "@BindPrefix" in m && m["@BindPrefix"] == "prefix"
      && "@BindSufix" in m && m["@BindSufix"] == "sufix"
      && "@ComplexType" in m && m["@ComplexType"] == "complexObj"
      && "@BindListener" in m && m["@BindListener"] == "listener"
  {
    var ps := AdapterParameters();
    assert Texts(ps[1].annotations) == ["@BindPrefix"];
    assert Texts(ps[2].annotations) == ["@BindSufix"];
    assert Texts(ps[3].annotations) == ["@ComplexType"];
    assert Texts(ps[4].annotations) == ["@BindListener"];
    GroupedLastWins(ps, "@BindPrefix", 1);
    GroupedLastWins(ps, "@BindSufix", 2);
    GroupedLastWins(ps, "@ComplexType", 3);
    GroupedLastWins(ps, "@BindListener", 4);
  }

  lemma SegmentsMy()
    ensures Segments("My") == "_MY"
  {
  }

  lemma SegmentsView()
    ensures Segments("View") == "_VIEW"
  {
    assert "View" == "Vi" + "ew";
    SegmentsAppend("Vi", "ew");
  }

  lemma SegmentsHolder()
    ensures Segments("Holder") == "_HOLDER"
  {
    assert "Hold" == "Ho" + "ld" && "Holder" == "Hold" + "er";
    SegmentsAppend("Ho", "ld");
    SegmentsAppend("Hold", "er");
  }

  lemma SegmentsMyViewHolder()
    ensures Segments("MyViewHolder") == "_MY_VIEW_HOLDER"
  {
    SegmentsMy();
    SegmentsView();
    SegmentsHolder();
    assert "MyView" == "My" + "View" && "MyViewHolder" == "MyView" + "Holder";
    SegmentsAppend("My", "View");
    SegmentsAppend("MyView", "Holder");
  }

  /** The view-type constants MyAdapter refers to: each capital gets its own `_`. */
  lemma SampleTagNames()
    ensures TagName("MyViewHolder1") == "TYPE_MY_VIEW_HOLDER1"
    ensures TagName("MyViewHolder2") == "TYPE_MY_VIEW_HOLDER2"
  {
    SegmentsMyViewHolder();
    SegmentsSnoc("MyViewHolder", '1');
    assert "MyViewHolder" + ['1'] == "MyViewHolder1";
    SegmentsSnoc("MyViewHolder", '2');
    assert "MyViewHolder" + ['2'] == "MyViewHolder2";
  }

  /** How two parameters resolve and join, and how many of them are unannotated. */
  lemma TwoArguments(ctx: Context, p: Parameter, q: Parameter, m: map<string, string>)
    ensures Join(Arguments(ctx, [p, q], m)) == Argument(ctx, p, m) + ", " + Argument(ctx, q, m)
    ensures UnannotatedCount([p, q], m) == (if Lookup(p, m).None? then 1 else 0) + (if Lookup(q, m).None? then 1 else 0)
  {
    var ps := [p, q];
    PrefixStep(ctx, ps, m, 0);
    PrefixStep(ctx, ps, m, 1);
    assert ps[..0] == [] && ps[..2] == ps;
    JoinAppend([Argument(ctx, p, m)], Argument(ctx, q, m));
  }

  /** A parameter with no annotation, or with one sample annotation, resolves against the adapter's map. */
  lemma SampleLookup(p: Parameter)
    ensures var m := Grouped(AdapterParameters());
      && (p.annotations == [] ==> Lookup(p, m) == None)
      && (p.annotations == [BIND_PREFIX] ==> Lookup(p, m) == Some("prefix"))
      && (p.annotations == [BIND_SUFIX] ==> Lookup(p, m) == Some("sufix"))
      && (p.annotations == [BIND_LISTENER] ==> Lookup(p, m) == Some("listener"))
  {
    AdapterMap();
    assert Texts([BIND_PREFIX]) == ["@BindPrefix"];
    assert Texts([BIND_SUFIX]) == ["@BindSufix"];
    assert Texts([BIND_LISTENER]) == ["@BindListener"];
  }

  /**
   * MyViewHolder1's calls: the unannotated binding and data take the
   * implicit values, the annotated parameters the adapter's fields, and no
   * error is logged.
   */
  lemma SampleHolder1Arguments()
    ensures var m := Grouped(AdapterParameters());
      && Join(Arguments(CreateContext, Holder1Constructor(), m)) == "binding, prefix"
      && Join(Arguments(BindContext, Holder1Bind(), m)) == "getItem(position), listener"
      && ShortageErrors(CreateContext, "MyViewHolder1", Holder1Constructor(), m) == []
      && ShortageErrors(BindContext, "MyViewHolder1.bindHolder1", Holder1Bind(), m) == []
  {
    var m := Grouped(AdapterParameters());
    var c, b := Holder1Constructor(), Holder1Bind();
    SampleLookup(c[0]); SampleLookup(c[1]);
    SampleLookup(b[0]); SampleLookup(b[1]);
    TwoArguments(CreateContext, c[0], c[1], m);
    TwoArguments(BindContext, b[0], b[1], m);
  }

  /** MyViewHolder2's calls: constructor arguments `listener, binding`, bind arguments `sufix, getItem(position)`. */
  lemma SampleHolder2Arguments()
    ensures var m := Grouped(AdapterParameters());
      && Join(Arguments(CreateContext, Holder2Constructor(), m)) == "listener, binding"
      && Join(Arguments(BindContext, Holder2Bind(), m)) == "sufix, getItem(position)"
      && ShortageErrors(CreateContext, "MyViewHolder2", Holder2Constructor(), m) == []
      && ShortageErrors(BindContext, "MyViewHolder2.bindHolder2", Holder2Bind(), m) == []
  {
    var m := Grouped(AdapterParameters());
    var c, b := Holder2Constructor(), Holder2Bind();
    SampleLookup(c[0]); SampleLookup(c[1]);
    SampleLookup(b[0]); SampleLookup(b[1]);
    TwoArguments(CreateContext, c[0], c[1], m);
    TwoArguments(BindContext, b[0], b[1], m);
  }
}
