/**
 * Textual SysML import and export: reading a `.sysml` file, staging the
 * `part def` and `part` declarations it contains, generating nested-package
 * SysML text from element dicts, and normalising an export path.
 *
 * Opening, reading and writing files, creating directories and the
 * interactive overwrite prompt are outside the model: the result of reading
 * a file is a parameter.
 */
module SysmlFileIo {
  import opened Json
  import opened PyText
  import opened SysmlClient

  const Extension: string := ".sysml"
  const PartDefinitionType: string := "PartDefinition"
  const PartUsageType: string := "PartUsage"
  /** The prefixes the importer tests a stripped line against. */
  const DefinitionPrefix: string := "part def"
  const UsagePrefix: string := "part"

  // ---------------------------------------------------------------------
  // Reading

  /** `read_sysml_file(path)`, where `read` is what opening the file and
      reading its lines gives (an OSError when the file cannot be opened). */
  function ReadSysmlFile(path: string, read: Result<seq<string>>): (r: Result<seq<string>>)
    ensures r.Ok? <==> EndsWith(path, Extension) && read.Ok? && read.value != []
    ensures r.Ok? ==> r.value == read.value
    ensures !EndsWith(path, Extension) ==>
      r == Err(ValueError("Invalid file type: '" + path + "'. Expected a .sysml file."))
    ensures EndsWith(path, Extension) && read.Err? ==> r == read
    ensures EndsWith(path, Extension) && read == Ok([]) ==>
      r == Err(OSError("Failed to read the file '" + path + "': No content was found."))
  {
    if !EndsWith(path, Extension) then Err(ValueError("Invalid file type: '" + path + "'. Expected a .sysml file."))
    else if read.Err? then read
    else if read.value == [] then Err(OSError("Failed to read the file '" + path + "': No content was found."))
    else read
  }

  // ---------------------------------------------------------------------
  // Import

  /** The two element types the importer stages. */
  datatype PartKind = PartDefinition | PartUsage {
    /** The `@type` the importer stages for the kind. */
    function TypeName(): string {
      match this
      case PartDefinition => PartDefinitionType
      case PartUsage => PartUsageType
    }
  }

  /** A declaration the importer recognises: its kind and its name. */
  datatype PartDecl = PartDecl(kind: PartKind, name: string)

  /** A line as the import loop sees it: stripped, then every trailing `;`
      removed. */
  function Stripped(l: string): string {
    RStripChar(Strip(l), ';')
  }

  /** The name after a keyword: the rest of the line without its trailing
      `{` characters and surrounding whitespace. */
  function NameAfter(rest: string): string {
    Strip(RStripChar(rest, '{'))
  }

  /** The branch the import loop takes for one stripped line: a `part def`
      line is a definition, any other line starting with "part" a usage,
      every other line nothing. */
  function ParseStripped(line: string): (r: Option<PartDecl>)
    ensures r.Some? <==> StartsWith(line, UsagePrefix)
    ensures r.Some? ==> (r.value.kind == PartDefinition <==> StartsWith(line, DefinitionPrefix))
  {
    if StartsWith(line, DefinitionPrefix) then
      StartsWithPrefix(line, DefinitionPrefix, UsagePrefix);
      Some(PartDecl(PartDefinition, NameAfter(line[|DefinitionPrefix|..])))
    else if StartsWith(line, UsagePrefix) then Some(PartDecl(PartUsage, NameAfter(line[|UsagePrefix|..])))
    else None
  }

  function ParseLine(l: string): Option<PartDecl> {
    ParseStripped(Stripped(l))
  }

  /** The branch taken for each line of a file, in line order. */
  function ParsedLines(ls: seq<string>): (r: seq<Option<PartDecl>>)
    ensures |r| == |ls| && forall i :: 0 <= i < |ls| ==> r[i] == ParseLine(ls[i])
  {
    seq(|ls|, i requires 0 <= i < |ls| => ParseLine(ls[i]))
  }

  /** The declarations among the branches, in order. */
  function Somes(os: seq<Option<PartDecl>>): (r: seq<PartDecl>)
    ensures |r| <= |os|
  {
    if os == [] then []
    else
      var rest := Somes(os[..|os| - 1]);
      match os[|os| - 1]
      case None => rest
      case Some(d) => rest + [d]
  }

  lemma SomesSnoc(os: seq<Option<PartDecl>>, o: Option<PartDecl>)
    ensures Somes(os + [o]) == Somes(os) + (if o.Some? then [o.value] else [])
  {
    assert (os + [o])[..|os|] == os;
  }

  lemma {:induction false} SomesConcat(a: seq<Option<PartDecl>>, b: seq<Option<PartDecl>>)
    ensures Somes(a + b) == Somes(a) + Somes(b)
    decreases |b|
  {
    if b == [] {
      assert a + b == a;
    } else {
      assert (a + b)[..|a + b| - 1] == a + b[..|b| - 1];
      SomesConcat(a, b[..|b| - 1]);
    }
  }

  /** There is no declaration exactly when every branch is None. */
  lemma {:induction false} SomesEmpty(os: seq<Option<PartDecl>>)
    ensures Somes(os) == [] <==> forall i :: 0 <= i < |os| ==> os[i].None?
  {
    if os != [] {
      var init := os[..|os| - 1];
      SomesEmpty(init);
      assert forall i :: 0 <= i < |init| ==> init[i] == os[i];
    }
  }

  /** The declarations of a file, in line order. */
  function ParseLines(ls: seq<string>): seq<PartDecl> {
    Somes(ParsedLines(ls))
  }

  /** One more line adds its declaration, if it has one, at the end. */
  lemma ParseLinesSnoc(ls: seq<string>, n: nat)
    requires n < |ls|
    ensures ParseLines(ls[..n + 1]) ==
      ParseLines(ls[..n]) + (if ParseLine(ls[n]).Some? then [ParseLine(ls[n]).value] else [])
  {
    assert ParsedLines(ls[..n + 1]) == ParsedLines(ls[..n]) + [ParseLine(ls[n])];
    SomesSnoc(ParsedLines(ls[..n]), ParseLine(ls[n]));
  }

  lemma ParseLinesConcat(a: seq<string>, b: seq<string>)
    ensures ParseLines(a + b) == ParseLines(a) + ParseLines(b)
  {
    assert ParsedLines(a + b) == ParsedLines(a) + ParsedLines(b);
    SomesConcat(ParsedLines(a), ParsedLines(b));
  }

  /** A file with a line that has a declaration has declarations. */
  lemma ParsedLineStages(ls: seq<string>, n: nat)
    requires n < |ls| && ParseLine(ls[n]).Some?
    ensures ParseLines(ls) != []
  {
    SomesEmpty(ParsedLines(ls));
  }

  /** A file stages nothing exactly when no stripped line starts with
      "part". */
  lemma ParseLinesEmpty(ls: seq<string>)
    ensures ParseLines(ls) == [] <==> forall i :: 0 <= i < |ls| ==> !StartsWith(Stripped(ls[i]), UsagePrefix)
  {
    SomesEmpty(ParsedLines(ls));
  }

  /** The attributes the corrected importer stages for a declaration. */
  function DeclAttrs(d: PartDecl): (r: Obj)
    ensures Lookup(r, "@type") == Some(JStr(d.kind.TypeName())) && Lookup(r, "name") == Some(JStr(d.name))
    ensures !HasKey(r, "self")
  {
    var r := [Member("@type", JStr(d.kind.TypeName())), Member("name", JStr(d.name))];
    LookupPair("@type", JStr(d.kind.TypeName()), "name", JStr(d.name));
    assert Keys(r) == ["@type", "name"];
    r
  }

  /** Looking up either key of a two-member dict. */
  lemma LookupPair(k1: string, v1: Json, k2: string, v2: Json)
    requires k1 != k2
    ensures Lookup([Member(k1, v1), Member(k2, v2)], k1) == Some(v1)
    ensures Lookup([Member(k1, v1), Member(k2, v2)], k2) == Some(v2)
  {
    var ms := [Member(k1, v1), Member(k2, v2)];
    assert ms[1..] == [Member(k2, v2)];
    assert ms[1..][1..] == [];
  }

  /** The change-list entry the corrected importer stages for a
      declaration. */
  function Creation(d: PartDecl): DataVersion {
    DataVersion(JObj(DeclAttrs(d)), None)
  }

  /** The change-list entries staged by creating each declaration in turn. */
  function Creations(ds: seq<PartDecl>): (r: seq<DataVersion>)
    ensures |r| == |ds|
  {
    if ds == [] then [] else Creations(ds[..|ds| - 1]) + [Creation(ds[|ds| - 1])]
  }

  /** Each declaration becomes one create entry, in declaration order. */
  lemma {:induction false} CreationsAt(ds: seq<PartDecl>, i: int)
    requires 0 <= i < |ds|
    ensures Creations(ds)[i] == Creation(ds[i])
    ensures Creations(ds)[i].identity == None
    ensures Lookup(Creations(ds)[i].payload.members, "@type") == Some(JStr(ds[i].kind.TypeName()))
    ensures Lookup(Creations(ds)[i].payload.members, "name") == Some(JStr(ds[i].name))
  {
    if i < |ds| - 1 {
      CreationsAt(ds[..|ds| - 1], i);
    }
  }

  lemma CreationsSnoc(ds: seq<PartDecl>, d: PartDecl)
    ensures Creations(ds + [d]) == Creations(ds) + [Creation(d)]
  {
    assert (ds + [d])[..|ds|] == ds;
  }

  /** Staging one more declaration appends its creation. */
  lemma StagedSnoc(initial: seq<DataVersion>, ds: seq<PartDecl>, d: PartDecl)
    ensures initial + Creations(ds) + [Creation(d)] == initial + Creations(ds + [d])
  {
    CreationsSnoc(ds, d);
  }

  /** `[c for c in now if c not in before]`: entries compare by value. */
  function NewEntries(now: seq<DataVersion>, before: seq<DataVersion>): (r: seq<DataVersion>)
    ensures |r| <= |now|
    ensures forall c :: c in r <==> c in now && c !in before
  {
    if now == [] then []
    else if now[0] in before then NewEntries(now[1..], before)
    else [now[0]] + NewEntries(now[1..], before)
  }

  /** What was appended is reported back, provided none of it was already
      staged before. */
  lemma NewEntriesAppended(before: seq<DataVersion>, added: seq<DataVersion>)
    requires forall c :: c in added ==> c !in before
    ensures NewEntries(before + added, before) == added
  {
    NewEntriesSkip(before, before, added);
  }

  lemma {:induction false} NewEntriesSkip(front: seq<DataVersion>, before: seq<DataVersion>, added: seq<DataVersion>)
    requires forall c :: c in front ==> c in before
    requires forall c :: c in added ==> c !in before
    ensures NewEntries(front + added, before) == added
    decreases |front| + |added|
  {
    if front != [] {
      assert (front + added)[0] == front[0];
      assert (front + added)[1..] == front[1..] + added;
      NewEntriesSkip(front[1..], before, added);
    } else if added != [] {
      assert front + added == added;
      assert added[1..] == [] + added[1..];
      NewEntriesSkip([], before, added[1..]);
    } else {
      assert front + added == [];
    }
  }

  /** An entry staged again compares equal to the earlier one and is not
      reported: `commits` loses a declaration that repeats one already
      staged before the import. */
  lemma NewEntriesDropsRepeats(before: seq<DataVersion>, c: DataVersion)
    requires c in before
    ensures NewEntries(before + [c], before) == []
  {
    NewEntriesSkip(before + [c], before, []);
    assert before + [c] + [] == before + [c];
  }

  class FileImporter {
    var fileContent: seq<string>
    var changes: seq<Json>
    /** None until an import has completed. */
    var commits: Option<seq<DataVersion>>

    constructor()
      ensures fileContent == [] && changes == [] && commits == None
    {
      fileContent := [];
      changes := [];
      commits := None;
    }

    /** `interpret` as the repository has it: it calls
        `client.create_element`, which `SysMLClient` does not define, so the
        first part line raises AttributeError. Only a file without part
        lines completes, with no new commits. */
    method InterpretAsWritten(client: SysMLClient, path: string, read: Result<seq<string>>) returns (o: Outcome)
      modifies this`fileContent, this`commits
      ensures ReadSysmlFile(path, read).Err? ==>
        o == Raised(ReadSysmlFile(path, read).error) && fileContent == old(fileContent) && commits == old(commits)
      ensures ReadSysmlFile(path, read).Ok? ==> fileContent == read.value
      ensures ReadSysmlFile(path, read).Ok? && (client.change.None? || ParseLines(read.value) != []) ==>
        o == Raised(AttributeError) && commits == old(commits)
      ensures ReadSysmlFile(path, read).Ok? && client.change.Some? && ParseLines(read.value) == [] ==>
        o == Done && commits == Some([])
    {
      var content := ReadSysmlFile(path, read);
      if content.Err? {
        return Raised(content.error);
      }
      fileContent := content.value;
      if client.change.None? {
        return Raised(AttributeError);
      }
      var initial := client.change.value;
      var i := 0;
      assert fileContent[..0] == [];
      while i < |fileContent|
        invariant 0 <= i <= |fileContent| && fileContent == read.value && commits == old(commits)
        invariant ParseLines(fileContent[..i]) == []
      {
        ParseLinesSnoc(fileContent, i);
        if ParseLine(fileContent[i]).Some? {
          ParsedLineStages(fileContent, i);
          return Raised(AttributeError);
        }
        i := i + 1;
      }
      assert fileContent[..i] == fileContent;
      NewEntriesAppended(initial, []);
      assert initial + [] == initial;
      commits := Some(NewEntries(client.change.value, initial));
      return Done;
    }

    /** `interpret` as intended: each `part def` line stages the creation of
        a PartDefinition, each other part line that of a PartUsage, in line
        order, through the client's `create`; `commits` then lists the
        entries that were not staged before. */
    method Interpret(client: SysMLClient, path: string, read: Result<seq<string>>) returns (o: Outcome)
      modifies this`fileContent, this`commits, client`change
      ensures ReadSysmlFile(path, read).Err? ==>
        o == Raised(ReadSysmlFile(path, read).error) && fileContent == old(fileContent) &&
        commits == old(commits) && client.change == old(client.change)
      ensures ReadSysmlFile(path, read).Ok? ==> fileContent == read.value
      ensures ReadSysmlFile(path, read).Ok? && old(client.change).None? ==>
        o == Raised(AttributeError) && commits == old(commits) && client.change == old(client.change)
      ensures ReadSysmlFile(path, read).Ok? && old(client.change).Some? ==>
        o == Done &&
        client.change == Some(old(client.change).value + Creations(ParseLines(read.value))) &&
        commits == Some(NewEntries(client.change.value, old(client.change).value))
    {
      var content := ReadSysmlFile(path, read);
      if content.Err? {
        return Raised(content.error);
      }
      fileContent := content.value;
      if client.change.None? {
        return Raised(AttributeError);
      }
      var initial := client.change.value;
      var i := 0;
      ghost var decls: seq<PartDecl> := [];
      assert fileContent[..0] == [] && ParsedLines([]) == [];
      assert initial + Creations([]) == initial;
      while i < |fileContent|
        invariant 0 <= i <= |fileContent|
        invariant fileContent == read.value
        invariant decls == ParseLines(fileContent[..i])
        invariant client.change == Some(initial + Creations(decls))
      {
        ParseLinesSnoc(fileContent, i);
        var decl := ParseLine(fileContent[i]);
        if decl.Some? {
          var created := client.Create(DeclAttrs(decl.value));
          StagedSnoc(initial, decls, decl.value);
          decls := decls + [decl.value];
        }
        i := i + 1;
      }
      assert fileContent[..i] == fileContent;
      commits := Some(NewEntries(client.change.value, initial));
      return Done;
    }
  }

  /** A one-line file with a part usage: the intended import stages it,
      where the repository's `interpret` raises AttributeError. */
  lemma PartLineIsStaged()
    ensures ParseLines(["part Wheel;"]) == [PartDecl(PartUsage, "Wheel")]
  {
    var l := "part Wheel;";
    WheelStripped();
    WheelParsed();
    assert ParsedLines([l]) == [] + [ParseLine(l)];
    SomesSnoc([], ParseLine(l));
  }

  lemma WheelStripped()
    ensures Stripped("part Wheel;") == "part Wheel"
  {
    StripOfTrimmed("part Wheel;");
    RStripCharAround("part Wheel", ';', ";");
    assert "part Wheel" + ";" == "part Wheel;";
  }

  lemma WheelParsed()
    ensures ParseStripped("part Wheel") == Some(PartDecl(PartUsage, "Wheel"))
  {
    var s := "part Wheel";
    NotStartsWithAt(s, DefinitionPrefix, 5);
    assert s[..|UsagePrefix|] == UsagePrefix;
    assert s[4..] == " Wheel";
    RStripCharAround(" Wheel", '{', "");
    assert " Wheel" + "" == " Wheel";
    StripAround(" ", "Wheel", "");
    assert " " + ("Wheel" + "") == " Wheel";
  }

  /** A string that differs from `p` at position `i` does not start with it. */
  lemma NotStartsWithAt(s: string, p: string, i: nat)
    requires i < |p| && i < |s| && s[i] != p[i]
    ensures !StartsWith(s, p)
  {
    assert |p| <= |s| ==> s[..|p|][i] == s[i];
  }


  // ---------------------------------------------------------------------
  // Export

  const Package: string := "package"
  const ModelName: string := "Model"
  const DefinitionsName: string := "Definitions"
  const PartDefinitionsName: string := "PartDefinitions"
  const ConfigurationName: string := "Configuration"
  /** The keywords `generate_sysml_text` writes before a name. */
  const DefinitionKeyword: string := "part def "
  const UsageKeyword: string := "part "

  /** A line of generated text before it is rendered: the header that
      `SectionWriter.__enter__` writes, the closing brace of `__exit__`, or
      a `write_line` statement, each at the indentation level current when
      it is written. */
  datatype Line =
    | Open(level: int, sectionType: string, name: string)
    | Close(level: int)
    | Statement(level: int, text: string)

  function Spaces(n: nat): (r: string)
    ensures |r| == n && forall i :: 0 <= i < n ==> r[i] == ' '
  {
    seq(n, _ => ' ')
  }

  /** `indent_level * 4 * " "`: a negative count gives the empty string. */
  function Indent(level: int): (r: string)
    ensures forall i :: 0 <= i < |r| ==> r[i] == ' '
    ensures |r| == (if level <= 0 then 0 else 4 * level)
  {
    if level <= 0 then "" else Spaces(4 * level)
  }

  /** The text of a line, newline included. */
  function Render(l: Line): string {
    match l
    case Open(level, t, n) => Indent(level) + (t + " " + n + " {\n")
    case Close(level) => Indent(level) + "}\n"
    case Statement(level, text) => Indent(level) + (text + ";\n")
  }

  function RenderAll(ls: seq<Line>): (r: seq<string>)
    ensures |r| == |ls| && forall i :: 0 <= i < |ls| ==> r[i] == Render(ls[i])
  {
    seq(|ls|, i requires 0 <= i < |ls| => Render(ls[i]))
  }

  /** One statement per name, in order. */
  function Statements(level: int, keyword: string, names: seq<string>): (r: seq<Line>)
    ensures |r| == |names| && forall i :: 0 <= i < |names| ==> r[i] == Statement(level, keyword + names[i])
  {
    seq(|names|, i requires 0 <= i < |names| => Statement(level, keyword + names[i]))
  }

  /** The Definitions package with its PartDefinitions package, written only
      when there is a part definition. */
  function DefinitionsLayout(defs: seq<string>): seq<Line> {
    if |defs| > 0 then
      [Open(1, Package, DefinitionsName), Open(2, Package, PartDefinitionsName)] +
      Statements(3, DefinitionKeyword, defs) + [Close(2), Close(1)]
    else []
  }

  /** The Configuration package, written always. */
  function ConfigurationLayout(parts: seq<string>): seq<Line> {
    [Open(1, Package, ConfigurationName)] + Statements(2, UsageKeyword, parts) + [Close(1)]
  }

  /** The lines `generate_sysml_text` writes for the names of the part
      definitions and of the part usages. */
  function Layout(defs: seq<string>, parts: seq<string>): seq<Line> {
    [Open(0, Package, ModelName)] + DefinitionsLayout(defs) + ConfigurationLayout(parts) + [Close(0)]
  }

  /** The text `generate_sysml_text` stores. */
  function SysmlText(defs: seq<string>, parts: seq<string>): seq<string> {
    RenderAll(Layout(defs, parts))
  }

  /** `[e for e in xs if e["@type"] == t]`: every item is indexed, so an
      item that is not a dict, or lacks `@type`, raises. */
  function Select(xs: seq<Json>, t: string): (r: Result<seq<Json>>)
    ensures r.Ok? <==> forall i :: 0 <= i < |xs| ==> Index(xs[i], "@type").Ok?
    ensures r.Err? ==> r.error == KeyError || r.error == TypeError
    ensures r.Ok? ==> forall p :: p in r.value ==> p in xs && Index(p, "@type") == Ok(JStr(t))
  {
    if xs == [] then Ok([])
    else
      match Index(xs[0], "@type")
      case Err(e) => Err(e)
      case Ok(v) =>
        match Select(xs[1..], t)
        case Err(e) => Err(e)
        case Ok(rest) =>
          assert forall i :: 1 <= i < |xs| ==> xs[i] == xs[1..][i - 1];
          if v == JStr(t) then Ok([xs[0]] + rest) else Ok(rest)
  }

  /** Every item of type `t` is selected. */
  lemma {:induction false} SelectKeeps(xs: seq<Json>, t: string, i: int)
    requires Select(xs, t).Ok? && 0 <= i < |xs| && Index(xs[i], "@type") == Ok(JStr(t))
    ensures xs[i] in Select(xs, t).value
  {
    if i > 0 {
      assert xs[1..][i - 1] == xs[i];
      SelectKeeps(xs[1..], t, i - 1);
    }
  }

  /** On a list of dicts, a failing selection is a KeyError. */
  lemma {:induction false} SelectKeyError(xs: seq<Json>, t: string)
    requires forall i :: 0 <= i < |xs| ==> xs[i].JObj?
    requires Select(xs, t).Err?
    ensures Select(xs, t).error == KeyError
  {
    if Index(xs[0], "@type").Ok? {
      assert forall i :: 0 <= i < |xs[1..]| ==> xs[1..][i] == xs[i + 1];
      SelectKeyError(xs[1..], t);
    }
  }

  /** `str(p['name'])` for each selected element, or the first KeyError. */
  function Names(ps: seq<Json>): (r: Result<seq<string>>)
    ensures r.Ok? <==> forall i :: 0 <= i < |ps| ==> Index(ps[i], "name").Ok?
    ensures r.Ok? ==> |r.value| == |ps| && forall i :: 0 <= i < |ps| ==> r.value[i] == Str(Index(ps[i], "name").value)
  {
    if ps == [] then Ok([])
    else
      var init := ps[..|ps| - 1];
      match Names(init)
      case Err(e) => NamesSnocFails(ps, init); Err(e)
      case Ok(ns) =>
        match Index(ps[|ps| - 1], "name")
        case Err(e) => Err(e)
        case Ok(v) => NamesSnoc(ps, init, ns, v); Ok(ns + [Str(v)])
  }

  /** A name for every element but the last, and one for the last. */
  lemma NamesSnoc(ps: seq<Json>, init: seq<Json>, ns: seq<string>, v: Json)
    requires ps != [] && init == ps[..|ps| - 1] && |ns| == |init|
    requires forall i :: 0 <= i < |init| ==> Index(init[i], "name").Ok? && ns[i] == Str(Index(init[i], "name").value)
    requires Index(ps[|ps| - 1], "name") == Ok(v)
    ensures forall i :: 0 <= i < |ps| ==> Index(ps[i], "name").Ok? && (ns + [Str(v)])[i] == Str(Index(ps[i], "name").value)
  {
    forall i | 0 <= i < |ps|
      ensures Index(ps[i], "name").Ok? && (ns + [Str(v)])[i] == Str(Index(ps[i], "name").value)
    {
      if i < |init| {
        assert init[i] == ps[i];
      }
    }
  }

  /** An element without a name among all but the last is one of the whole
      list. */
  lemma NamesSnocFails(ps: seq<Json>, init: seq<Json>)
    requires ps != [] && init == ps[..|ps| - 1]
    requires !forall i :: 0 <= i < |init| ==> Index(init[i], "name").Ok?
    ensures !forall i :: 0 <= i < |ps| ==> Index(ps[i], "name").Ok?
  {
    var i :| 0 <= i < |init| && !Index(init[i], "name").Ok?;
    assert init[i] == ps[i];
  }

  /** One more turn of the loop over the selected elements. */
  lemma NamesNext(ps: seq<Json>, i: nat, names: seq<string>)
    requires i < |ps| && Names(ps[..i]) == Ok(names)
    ensures Names(ps[..i + 1]) ==
      match Index(ps[i], "name")
      case Err(e) => Err(e)
      case Ok(v) => Ok(names + [Str(v)])
  {
    assert ps[..i + 1][..i] == ps[..i];
  }

  lemma {:induction false} NamesErrExtends(ps: seq<Json>, i: nat)
    requires i <= |ps| && Names(ps[..i]).Err?
    ensures Names(ps) == Names(ps[..i])
    decreases |ps| - i
  {
    if i == |ps| {
      assert ps[..i] == ps;
    } else {
      assert ps[..i + 1][..i] == ps[..i];
      NamesErrExtends(ps, i + 1);
    }
  }

  /** On dicts, a missing name is a KeyError. */
  lemma {:induction false} NamesKeyError(ps: seq<Json>)
    requires forall i :: 0 <= i < |ps| ==> ps[i].JObj?
    requires Names(ps).Err?
    ensures Names(ps).error == KeyError
  {
    var init := ps[..|ps| - 1];
    if Names(init).Err? {
      NamesKeyError(init);
    }
  }

  /** The whole of `generate_sysml_text`: the lines it stores, or the
      exception it raises first. */
  function ExportText(elements: Json): Result<seq<string>> {
    match Iterate(elements)
    case Err(e) => Err(e)
    case Ok(xs) => ExportItems(xs)
  }

  /** The two selections, part definitions first. */
  function ExportItems(xs: seq<Json>): Result<seq<string>> {
    match Select(xs, PartDefinitionType)
    case Err(e) => Err(e)
    case Ok(defs) =>
      match Select(xs, PartUsageType)
      case Err(e) => Err(e)
      case Ok(parts) => ExportSelected(defs, parts)
  }

  /** The names, those of the part definitions first. */
  function ExportSelected(defs: seq<Json>, parts: seq<Json>): Result<seq<string>> {
    match Names(defs)
    case Err(e) => Err(e)
    case Ok(defNames) =>
      match Names(parts)
      case Err(e) => Err(e)
      case Ok(partNames) => Ok(SysmlText(defNames, partNames))
  }

  /** The local `file_contents` and `indent_level` that `SectionWriter` and
      `write_line` share. */
  class Writer {
    var lines: seq<string>
    var indentLevel: int

    constructor()
      ensures lines == [] && indentLevel == 0
    {
      lines := [];
      indentLevel := 0;
    }

    /** `SectionWriter(sectionType, sectionName).__enter__()`. */
    method Enter(sectionType: string, sectionName: string)
      modifies this
      ensures lines == old(lines) + [Render(Open(old(indentLevel), sectionType, sectionName))]
      ensures indentLevel == old(indentLevel) + 1
    {
      lines := lines + [Render(Open(indentLevel, sectionType, sectionName))];
      indentLevel := indentLevel + 1;
    }

    /** `SectionWriter.__exit__`. */
    method Exit()
      modifies this
      ensures indentLevel == old(indentLevel) - 1
      ensures lines == old(lines) + [Render(Close(indentLevel))]
    {
      indentLevel := indentLevel - 1;
      lines := lines + [Render(Close(indentLevel))];
    }

    /** `write_line(text)`. */
    method WriteLine(text: string)
      modifies this`lines
      ensures lines == old(lines) + [Render(Statement(indentLevel, text))]
    {
      lines := lines + [Render(Statement(indentLevel, text))];
    }
  }

  class FileExporter {
    var fileContents: seq<string>

    constructor()
      ensures fileContents == []
    {
      fileContents := [];
    }

    /** The statements for `ps` at the writer's current level. */
    method WriteStatements(w: Writer, keyword: string, ps: seq<Json>) returns (r: Result<seq<string>>)
      modifies w`lines
      ensures r == Names(ps)
      ensures r.Ok? ==> w.lines == old(w.lines) + RenderAll(Statements(w.indentLevel, keyword, r.value))
    {
      var start := w.lines;
      var i := 0;
      var names: seq<string> := [];
      assert ps[..0] == [];
      while i < |ps|
        invariant 0 <= i <= |ps|
        invariant Names(ps[..i]) == Ok(names)
        invariant w.lines == start + RenderAll(Statements(w.indentLevel, keyword, names))
      {
        NamesNext(ps, i, names);
        var name := Index(ps[i], "name");
        if name.Err? {
          NamesErrExtends(ps, i + 1);
          return Err(name.error);
        }
        var text := Str(name.value);
        StatementWritten(start, w.lines, w.indentLevel, keyword, names, text);
        w.WriteLine(keyword + text);
        names := names + [text];
        i := i + 1;
      }
      assert ps[..i] == ps;
      return Ok(names);
    }

    /** The Definitions section, entered at level 1 when there is a part
        definition. */
    method WriteDefinitions(w: Writer, defs: seq<Json>) returns (r: Result<seq<string>>)
      requires w.indentLevel == 1
      modifies w
      ensures r == Names(defs)
      ensures r.Ok? ==> w.lines == old(w.lines) + RenderAll(DefinitionsLayout(r.value)) && w.indentLevel == 1
    {
      if |defs| == 0 {
        assert w.lines == old(w.lines) + [];
        return Ok([]);
      }
      w.Enter(Package, DefinitionsName);
      w.Enter(Package, PartDefinitionsName);
      r := WriteStatements(w, DefinitionKeyword, defs);
      if r.Err? {
        return;
      }
      w.Exit();
      w.Exit();
      DefinitionsRendered(r.value);
      RegroupSection(old(w.lines), [Render(Open(1, Package, DefinitionsName))], [Render(Open(2, Package, PartDefinitionsName))],
        RenderAll(Statements(3, DefinitionKeyword, r.value)), [Render(Close(2))], [Render(Close(1))]);
    }

    /** The Configuration section, entered at level 1. */
    method WriteConfiguration(w: Writer, parts: seq<Json>) returns (r: Result<seq<string>>)
      requires w.indentLevel == 1
      modifies w
      ensures r == Names(parts)
      ensures r.Ok? ==> w.lines == old(w.lines) + RenderAll(ConfigurationLayout(r.value)) && w.indentLevel == 1
    {
      w.Enter(Package, ConfigurationName);
      r := WriteStatements(w, UsageKeyword, parts);
      if r.Err? {
        return;
      }
      w.Exit();
      ConfigurationRendered(r.value);
      Regroup(old(w.lines), [Render(Open(1, Package, ConfigurationName))],
        RenderAll(Statements(2, UsageKeyword, r.value)), [Render(Close(1))]);
    }

    /** The body of the outermost `with` block: the Model package and what
        it holds, written by a fresh writer. */
    method WriteModel(defs: seq<Json>, parts: seq<Json>) returns (r: Result<seq<string>>)
      ensures r == ExportSelected(defs, parts)
    {
      var w := new Writer();
      w.Enter(Package, ModelName);
      assert w.lines == RenderAll([Open(0, Package, ModelName)]);
      var defNames := WriteDefinitions(w, defs);
      if defNames.Err? {
        return Err(defNames.error);
      }
      var partNames := WriteConfiguration(w, parts);
      if partNames.Err? {
        return Err(partNames.error);
      }
      var d := DefinitionsLayout(defNames.value);
      var c := ConfigurationLayout(partNames.value);
      assert w.lines == RenderAll([Open(0, Package, ModelName)]) + RenderAll(d) + RenderAll(c);
      w.Exit();
      assert w.lines == RenderAll([Open(0, Package, ModelName)]) + RenderAll(d) + RenderAll(c) + RenderAll([Close(0)]);
      RenderAllConcat([Open(0, Package, ModelName)] + d + c, [Close(0)]);
      RenderAllConcat([Open(0, Package, ModelName)] + d, c);
      RenderAllConcat([Open(0, Package, ModelName)], d);
      assert Layout(defNames.value, partNames.value) == [Open(0, Package, ModelName)] + d + c + [Close(0)];
      return Ok(w.lines);
    }

    /** `generate_sysml_text(elements)`: on success the lines are stored; on
        an exception the stored lines stay as they were. */
    method GenerateSysmlText(elements: Json) returns (o: Outcome)
      modifies this`fileContents
      ensures match ExportText(elements)
        case Err(e) => o == Raised(e) && fileContents == old(fileContents)
        case Ok(text) => o == Done && fileContents == text
    {
      var items := Iterate(elements);
      if items.Err? {
        return Raised(items.error);
      }
      var partDefinitions := Select(items.value, PartDefinitionType);
      if partDefinitions.Err? {
        return Raised(partDefinitions.error);
      }
      // Both selections index every item, so the second cannot fail once
      // the first has succeeded.
      var parts := Select(items.value, PartUsageType);
      var text := WriteModel(partDefinitions.value, parts.value);
      if text.Err? {
        return Raised(text.error);
      }
      fileContents := text.value;
      return Done;
    }
  }

  lemma RenderedStatementsSnoc(level: int, keyword: string, names: seq<string>, name: string)
    ensures RenderAll(Statements(level, keyword, names + [name])) ==
      RenderAll(Statements(level, keyword, names)) + [Render(Statement(level, keyword + name))]
  {
    var a := RenderAll(Statements(level, keyword, names + [name]));
    var b := RenderAll(Statements(level, keyword, names)) + [Render(Statement(level, keyword + name))];
    assert |a| == |b|;
    forall i | 0 <= i < |a| ensures a[i] == b[i] {
      if i < |names| {
        assert (names + [name])[i] == names[i];
      }
    }
  }

  lemma StatementWritten(start: seq<string>, lines: seq<string>, level: int, keyword: string, names: seq<string>, name: string)
    requires lines == start + RenderAll(Statements(level, keyword, names))
    ensures lines + [Render(Statement(level, keyword + name))] == start + RenderAll(Statements(level, keyword, names + [name]))
  {
    RenderedStatementsSnoc(level, keyword, names, name);
  }

  lemma RenderAllConcat(a: seq<Line>, b: seq<Line>)
    ensures RenderAll(a + b) == RenderAll(a) + RenderAll(b)
  {
  }

  lemma Regroup(a: seq<string>, b: seq<string>, c: seq<string>, d: seq<string>)
    ensures a + b + c + d == a + (b + c + d)
  {
  }

  lemma RegroupSection(a: seq<string>, b: seq<string>, c: seq<string>, d: seq<string>, e: seq<string>, f: seq<string>)
    ensures a + b + c + d + e + f == a + (b + c + d + e + f)
  {
  }

  /** The rendered Definitions section: its two headers, its statements,
      its two closing braces. */
  lemma DefinitionsRendered(defs: seq<string>)
    requires |defs| > 0
    ensures RenderAll(DefinitionsLayout(defs)) ==
      [Render(Open(1, Package, DefinitionsName))] + [Render(Open(2, Package, PartDefinitionsName))] +
      RenderAll(Statements(3, DefinitionKeyword, defs)) + [Render(Close(2))] + [Render(Close(1))]
  {
    var heads := [Open(1, Package, DefinitionsName), Open(2, Package, PartDefinitionsName)];
    var body := Statements(3, DefinitionKeyword, defs);
    RenderAllConcat(heads + body, [Close(2), Close(1)]);
    RenderAllConcat(heads, body);
  }

  /** The rendered Configuration section: its header, its statements, its
      closing brace. */
  lemma ConfigurationRendered(parts: seq<string>)
    ensures RenderAll(ConfigurationLayout(parts)) ==
      [Render(Open(1, Package, ConfigurationName))] + RenderAll(Statements(2, UsageKeyword, parts)) + [Render(Close(1))]
  {
    var body := Statements(2, UsageKeyword, parts);
    RenderAllConcat([Open(1, Package, ConfigurationName)] + body, [Close(1)]);
    RenderAllConcat([Open(1, Package, ConfigurationName)], body);
  }

  // ---------------------------------------------------------------------
  // What the exported text looks like

  /** The depth after the lines `ls`, read from depth `d`, when every header
      and statement sits at the depth it is written at and every closing
      brace at the depth of its header; None when a line is out of place
      or a brace closes below the outermost level. */
  function Nest(ls: seq<Line>, d: nat): Option<nat> {
    if ls == [] then Some(d)
    else
      match ls[0]
      case Open(level, _, _) => if level == d then Nest(ls[1..], d + 1) else None
      case Statement(level, _) => if level == d then Nest(ls[1..], d) else None
      case Close(level) => if d > 0 && level == d - 1 then Nest(ls[1..], d - 1) else None
  }

  lemma {:induction false} NestConcat(a: seq<Line>, b: seq<Line>, d: nat)
    ensures Nest(a + b, d) == if Nest(a, d).Some? then Nest(b, Nest(a, d).value) else None
  {
    if a != [] {
      assert (a + b)[0] == a[0] && (a + b)[1..] == a[1..] + b;
      match a[0]
      case Open(level, _, _) => if level == d { NestConcat(a[1..], b, d + 1); }
      case Statement(level, _) => if level == d { NestConcat(a[1..], b, d); }
      case Close(level) => if d > 0 && level == d - 1 { NestConcat(a[1..], b, d - 1); }
    } else {
      assert a + b == b;
    }
  }

  lemma {:induction false} NestStatements(level: nat, keyword: string, names: seq<string>)
    ensures Nest(Statements(level, keyword, names), level) == Some(level)
  {
    if names != [] {
      assert Statements(level, keyword, names)[1..] == Statements(level, keyword, names[1..]);
      NestStatements(level, keyword, names[1..]);
    }
  }

  /** Every section the exporter opens is closed at its own level, and the
      statements sit one level inside their section. */
  lemma LayoutNested(defs: seq<string>, parts: seq<string>)
    ensures Nest(Layout(defs, parts), 0) == Some(0)
  {
    var head := [Open(1, Package, DefinitionsName), Open(2, Package, PartDefinitionsName)];
    if |defs| > 0 {
      NestStatements(3, DefinitionKeyword, defs);
      NestConcat(head, Statements(3, DefinitionKeyword, defs), 1);
      NestConcat(head + Statements(3, DefinitionKeyword, defs), [Close(2), Close(1)], 1);
    }
    assert Nest(DefinitionsLayout(defs), 1) == Some(1);
    NestStatements(2, UsageKeyword, parts);
    NestConcat([Open(1, Package, ConfigurationName)], Statements(2, UsageKeyword, parts), 1);
    NestConcat([Open(1, Package, ConfigurationName)] + Statements(2, UsageKeyword, parts), [Close(1)], 1);
    assert Nest(ConfigurationLayout(parts), 1) == Some(1);
    NestConcat([Open(0, Package, ModelName)], DefinitionsLayout(defs), 0);
    NestConcat([Open(0, Package, ModelName)] + DefinitionsLayout(defs), ConfigurationLayout(parts), 0);
    NestConcat([Open(0, Package, ModelName)] + DefinitionsLayout(defs) + ConfigurationLayout(parts), [Close(0)], 0);
  }

  function NumOpen(ls: seq<Line>): nat {
    if ls == [] then 0 else (if ls[0].Open? then 1 else 0) + NumOpen(ls[1..])
  }

  function NumClose(ls: seq<Line>): nat {
    if ls == [] then 0 else (if ls[0].Close? then 1 else 0) + NumClose(ls[1..])
  }

  /** Well-placed lines open as many sections as they close, up to the
      change of depth. */
  lemma {:induction false} NestCounts(ls: seq<Line>, d: nat)
    requires Nest(ls, d).Some?
    ensures NumOpen(ls) + d == NumClose(ls) + Nest(ls, d).value
  {
    if ls != [] {
      match ls[0]
      case Open(_, _, _) => NestCounts(ls[1..], d + 1);
      case Statement(_, _) => NestCounts(ls[1..], d);
      case Close(_) => NestCounts(ls[1..], d - 1);
    }
  }

  /** Well-placed lines never sit at a negative level. */
  lemma {:induction false} NestLevels(ls: seq<Line>, d: nat)
    requires Nest(ls, d).Some?
    ensures forall i :: 0 <= i < |ls| ==> ls[i].level >= 0
  {
    if ls != [] {
      match ls[0]
      case Open(_, _, _) => NestLevels(ls[1..], d + 1);
      case Statement(_, _) => NestLevels(ls[1..], d);
      case Close(_) => NestLevels(ls[1..], d - 1);
      assert forall i :: 1 <= i < |ls| ==> ls[i] == ls[1..][i - 1];
    }
  }

  /** `"".join(lines)`. */
  function Join(lines: seq<string>): string {
    if lines == [] then [] else lines[0] + Join(lines[1..])
  }

  /** `s.count(c)` for a single character. */
  function Count(s: string, c: char): nat {
    if s == [] then 0 else (if s[0] == c then 1 else 0) + Count(s[1..], c)
  }

  lemma {:induction false} CountConcat(a: string, b: string, c: char)
    ensures Count(a + b, c) == Count(a, c) + Count(b, c)
  {
    if a == [] {
      assert a + b == b;
    } else {
      assert (a + b)[1..] == a[1..] + b;
      CountConcat(a[1..], b, c);
    }
  }

  lemma {:induction false} CountAbsent(s: string, c: char)
    requires c !in s
    ensures Count(s, c) == 0
  {
    if s != [] {
      assert s[0] in s;
      assert forall x :: x in s[1..] ==> x in s;
      CountAbsent(s[1..], c);
    }
  }

  predicate BraceFree(s: string) {
    '{' !in s && '}' !in s
  }

  /** The names and texts a line carries hold no brace of their own. */
  predicate LineBraceFree(l: Line) {
    match l
    case Open(_, t, n) => BraceFree(t) && BraceFree(n)
    case Close(_) => true
    case Statement(_, text) => BraceFree(text)
  }

  /** A header line holds one opening brace, a closing line one closing
      brace, a statement none. */
  lemma RenderBraces(l: Line)
    requires LineBraceFree(l)
    ensures Count(Render(l), '{') == (if l.Open? then 1 else 0)
    ensures Count(Render(l), '}') == (if l.Close? then 1 else 0)
  {
    var pad := Indent(l.level);
    assert forall x :: x in pad ==> x == ' ';
    CountAbsent(pad, '{');
    CountAbsent(pad, '}');
    match l
    case Open(_, t, n) =>
      var tail: string := " {\n";
      assert Count(tail, '{') == 1 && Count(tail, '}') == 0;
      CountAbsent(t + " " + n, '{');
      CountAbsent(t + " " + n, '}');
      CountConcat(t + " " + n, tail, '{');
      CountConcat(t + " " + n, tail, '}');
      CountConcat(pad, t + " " + n + tail, '{');
      CountConcat(pad, t + " " + n + tail, '}');
    case Close(_) =>
      var tail: string := "}\n";
      assert Count(tail, '{') == 0 && Count(tail, '}') == 1;
      CountConcat(pad, tail, '{');
      CountConcat(pad, tail, '}');
    case Statement(_, text) =>
      var tail: string := ";\n";
      assert Count(tail, '{') == 0 && Count(tail, '}') == 0;
      CountAbsent(text, '{');
      CountAbsent(text, '}');
      CountConcat(text, tail, '{');
      CountConcat(text, tail, '}');
      CountConcat(pad, text + tail, '{');
      CountConcat(pad, text + tail, '}');
  }

  /** The braces of the joined text are those of the headers and of the
      closing lines. */
  lemma {:induction false} JoinBraces(ls: seq<Line>)
    requires forall i :: 0 <= i < |ls| ==> LineBraceFree(ls[i])
    ensures Count(Join(RenderAll(ls)), '{') == NumOpen(ls)
    ensures Count(Join(RenderAll(ls)), '}') == NumClose(ls)
  {
    if ls != [] {
      assert RenderAll(ls)[1..] == RenderAll(ls[1..]);
      JoinBraces(ls[1..]);
      RenderBraces(ls[0]);
      CountConcat(Render(ls[0]), Join(RenderAll(ls[1..])), '{');
      CountConcat(Render(ls[0]), Join(RenderAll(ls[1..])), '}');
    }
  }

  lemma StatementsBraceFree(level: int, keyword: string, names: seq<string>)
    requires BraceFree(keyword)
    requires forall i :: 0 <= i < |names| ==> BraceFree(names[i])
    ensures forall l :: l in Statements(level, keyword, names) ==> LineBraceFree(l)
  {
    forall i | 0 <= i < |names| ensures BraceFree(keyword + names[i]) {
    }
  }

  lemma KeywordsBraceFree()
    ensures BraceFree(DefinitionKeyword) && BraceFree(UsageKeyword) && BraceFree(Package)
    ensures BraceFree(ModelName) && BraceFree(DefinitionsName)
    ensures BraceFree(PartDefinitionsName) && BraceFree(ConfigurationName)
  {
    LettersBraceFree(DefinitionKeyword);
    LettersBraceFree(UsageKeyword);
    LettersBraceFree(Package);
    LettersBraceFree(ModelName);
    LettersBraceFree(DefinitionsName);
    LettersBraceFree(PartDefinitionsName);
    LettersBraceFree(ConfigurationName);
  }

  lemma LettersBraceFree(s: string)
    requires forall i :: 0 <= i < |s| ==> s[i] == ' ' || 'a' <= s[i] <= 'z' || 'A' <= s[i] <= 'Z'
    ensures BraceFree(s)
  {
  }

  /** With brace-free names, every line of the layout is brace-free. */
  lemma LayoutBraceFree(defs: seq<string>, parts: seq<string>)
    requires forall i :: 0 <= i < |defs| ==> BraceFree(defs[i])
    requires forall i :: 0 <= i < |parts| ==> BraceFree(parts[i])
    ensures forall i :: 0 <= i < |Layout(defs, parts)| ==> LineBraceFree(Layout(defs, parts)[i])
  {
    KeywordsBraceFree();
    StatementsBraceFree(3, DefinitionKeyword, defs);
    StatementsBraceFree(2, UsageKeyword, parts);
    var ls := Layout(defs, parts);
    assert forall l :: l in ls ==> LineBraceFree(l);
  }

  /** The exported text has as many opening as closing braces, as long as
      no name holds a brace. */
  lemma ExportBalanced(defs: seq<string>, parts: seq<string>)
    requires forall i :: 0 <= i < |defs| ==> BraceFree(defs[i])
    requires forall i :: 0 <= i < |parts| ==> BraceFree(parts[i])
    ensures Count(Join(SysmlText(defs, parts)), '{') == Count(Join(SysmlText(defs, parts)), '}')
  {
    LayoutNested(defs, parts);
    NestCounts(Layout(defs, parts), 0);
    LayoutBraceFree(defs, parts);
    JoinBraces(Layout(defs, parts));
  }

  /** `len(line) - len(line.lstrip(" "))`. */
  function LeadingSpaces(s: string): nat {
    if s != [] && s[0] == ' ' then 1 + LeadingSpaces(s[1..]) else 0
  }

  lemma {:induction false} LeadingSpacesOf(pad: string, rest: string)
    requires forall i :: 0 <= i < |pad| ==> pad[i] == ' '
    requires rest != [] && rest[0] != ' '
    ensures LeadingSpaces(pad + rest) == |pad|
  {
    if pad == [] {
      assert pad + rest == rest;
    } else {
      assert (pad + rest)[1..] == pad[1..] + rest;
      LeadingSpacesOf(pad[1..], rest);
    }
  }

  /** A generated line as the notation asks: indented by a multiple of four
      spaces, and ending in `{`, `}` or `;` before its newline. */
  predicate WellFormedLine(s: string) {
    LeadingSpaces(s) % 4 == 0 && |s| >= 2 && s[|s| - 1] == '\n' &&
    (s[|s| - 2] == '{' || s[|s| - 2] == '}' || s[|s| - 2] == ';')
  }

  /** The text of a header or statement starts with a word. */
  predicate Headed(l: Line) {
    match l
    case Open(_, t, _) => t != [] && t[0] != ' '
    case Close(_) => true
    case Statement(_, text) => text != [] && text[0] != ' '
  }

  lemma RenderWellFormed(l: Line)
    requires l.level >= 0 && Headed(l)
    ensures WellFormedLine(Render(l))
  {
    var pad := Indent(l.level);
    match l
    case Open(_, t, n) =>
      var rest := t + " " + n + " {\n";
      assert rest[0] == t[0];
      LeadingSpacesOf(pad, rest);
      assert Render(l) == pad + rest;
    case Close(_) =>
      var rest := "}\n";
      LeadingSpacesOf(pad, rest);
    case Statement(_, text) =>
      var rest := text + ";\n";
      assert rest[0] == text[0];
      LeadingSpacesOf(pad, rest);
  }

  lemma LayoutHeaded(defs: seq<string>, parts: seq<string>)
    ensures forall l :: l in Layout(defs, parts) ==> Headed(l)
  {
    assert Package[0] == 'p' && DefinitionKeyword[0] == 'p' && UsageKeyword[0] == 'p';
    assert forall l :: l in Statements(3, DefinitionKeyword, defs) ==> Headed(l);
    assert forall l :: l in Statements(2, UsageKeyword, parts) ==> Headed(l);
  }

  /** Every line the exporter writes is well formed. */
  lemma ExportWellFormed(defs: seq<string>, parts: seq<string>)
    ensures forall i :: 0 <= i < |SysmlText(defs, parts)| ==> WellFormedLine(SysmlText(defs, parts)[i])
  {
    var ls := Layout(defs, parts);
    LayoutNested(defs, parts);
    NestLevels(ls, 0);
    LayoutHeaded(defs, parts);
    forall i | 0 <= i < |ls| ensures WellFormedLine(Render(ls[i])) {
      assert ls[i] in ls;
      RenderWellFormed(ls[i]);
    }
  }

  /** The texts of the statements, in order. */
  function StatementTexts(ls: seq<Line>): seq<string> {
    if ls == [] then [] else (if ls[0].Statement? then [ls[0].text] else []) + StatementTexts(ls[1..])
  }

  lemma {:induction false} StatementTextsConcat(a: seq<Line>, b: seq<Line>)
    ensures StatementTexts(a + b) == StatementTexts(a) + StatementTexts(b)
  {
    if a == [] {
      assert a + b == b;
    } else {
      assert (a + b)[1..] == a[1..] + b;
      StatementTextsConcat(a[1..], b);
    }
  }

  /** `keyword + name` for each name. */
  function Prefixed(keyword: string, names: seq<string>): (r: seq<string>)
    ensures |r| == |names| && forall i :: 0 <= i < |names| ==> r[i] == keyword + names[i]
  {
    seq(|names|, i requires 0 <= i < |names| => keyword + names[i])
  }

  lemma {:induction false} StatementTextsOf(level: int, keyword: string, names: seq<string>)
    ensures StatementTexts(Statements(level, keyword, names)) == Prefixed(keyword, names)
  {
    if names != [] {
      assert Statements(level, keyword, names)[1..] == Statements(level, keyword, names[1..]);
      StatementTextsOf(level, keyword, names[1..]);
      assert Prefixed(keyword, names) == [keyword + names[0]] + Prefixed(keyword, names[1..]);
    }
  }

  lemma DefinitionsTexts(defs: seq<string>)
    ensures StatementTexts(DefinitionsLayout(defs)) == Prefixed(DefinitionKeyword, defs)
  {
    var head := [Open(1, Package, DefinitionsName), Open(2, Package, PartDefinitionsName)];
    StatementTextsOf(3, DefinitionKeyword, defs);
    if |defs| > 0 {
      StatementTextsConcat(head, Statements(3, DefinitionKeyword, defs));
      StatementTextsConcat(head + Statements(3, DefinitionKeyword, defs), [Close(2), Close(1)]);
    }
  }

  lemma ConfigurationTexts(parts: seq<string>)
    ensures StatementTexts(ConfigurationLayout(parts)) == Prefixed(UsageKeyword, parts)
  {
    StatementTextsOf(2, UsageKeyword, parts);
    StatementTextsConcat([Open(1, Package, ConfigurationName)], Statements(2, UsageKeyword, parts));
    StatementTextsConcat([Open(1, Package, ConfigurationName)] + Statements(2, UsageKeyword, parts), [Close(1)]);
  }

  /** The statements are the part definitions, then the part usages, each
      in the order of the input. */
  lemma LayoutStatements(defs: seq<string>, parts: seq<string>)
    ensures StatementTexts(Layout(defs, parts)) == Prefixed(DefinitionKeyword, defs) + Prefixed(UsageKeyword, parts)
  {
    var m := [Open(0, Package, ModelName)];
    var d := DefinitionsLayout(defs);
    var c := ConfigurationLayout(parts);
    DefinitionsTexts(defs);
    ConfigurationTexts(parts);
    StatementTextsConcat(m, d);
    StatementTextsConcat(m + d, c);
    StatementTextsConcat(m + d + c, [Close(0)]);
  }

  /** The Model package encloses everything and the Configuration package
      is always written. */
  lemma LayoutSections(defs: seq<string>, parts: seq<string>)
    ensures Layout(defs, parts)[0] == Open(0, Package, ModelName)
    ensures Layout(defs, parts)[|Layout(defs, parts)| - 1] == Close(0)
    ensures Open(1, Package, ConfigurationName) in Layout(defs, parts)
  {
    var c := ConfigurationLayout(parts);
    assert c[0] in c;
  }

  lemma ConfigurationHasNoDefinitions(parts: seq<string>)
    ensures Open(1, Package, DefinitionsName) !in ConfigurationLayout(parts)
    ensures Open(2, Package, PartDefinitionsName) !in ConfigurationLayout(parts)
  {
    assert |DefinitionsName| != |ConfigurationName|;
    assert forall l :: l in Statements(2, UsageKeyword, parts) ==> l.Statement?;
  }

  /** The Definitions and PartDefinitions packages are written exactly when
      there is a part definition. */
  lemma DefinitionsSection(defs: seq<string>, parts: seq<string>)
    ensures Open(1, Package, DefinitionsName) in Layout(defs, parts) <==> |defs| > 0
    ensures Open(2, Package, PartDefinitionsName) in Layout(defs, parts) <==> |defs| > 0
  {
    var m := [Open(0, Package, ModelName)];
    var d := DefinitionsLayout(defs);
    var c := ConfigurationLayout(parts);
    ConfigurationHasNoDefinitions(parts);
    assert Layout(defs, parts) == m + d + c + [Close(0)];
    if |defs| > 0 {
      assert d[0] == Open(1, Package, DefinitionsName) && d[1] == Open(2, Package, PartDefinitionsName);
      assert d[0] in d && d[1] in d;
    }
  }

  /** With no elements, only the Model and Configuration packages. */
  lemma EmptyExport()
    ensures ExportText(JArr([])) == Ok(RenderAll([Open(0, Package, ModelName), Open(1, Package, ConfigurationName), Close(1), Close(0)]))
  {
    assert Statements(2, UsageKeyword, []) == [];
    assert Layout([], []) == [Open(0, Package, ModelName), Open(1, Package, ConfigurationName), Close(1), Close(0)];
  }

  /** An element the exporter accepts: it has a type, and a name when it is
      a part definition or a part usage. */
  predicate Exportable(x: Json) {
    Index(x, "@type").Ok? &&
    (Index(x, "@type").value == JStr(PartDefinitionType) || Index(x, "@type").value == JStr(PartUsageType) ==>
       Index(x, "name").Ok?)
  }

  lemma {:induction false} NamesOkOf(ps: seq<Json>, xs: seq<Json>, t: string)
    requires forall p :: p in ps ==> p in xs && Index(p, "@type") == Ok(JStr(t))
    requires forall i :: 0 <= i < |xs| ==> Index(xs[i], "@type") == Ok(JStr(t)) ==> Index(xs[i], "name").Ok?
    ensures Names(ps).Ok?
  {
    forall i | 0 <= i < |ps| ensures Index(ps[i], "name").Ok? {
      assert ps[i] in ps;
      var j :| 0 <= j < |xs| && xs[j] == ps[i];
    }
  }

  /** The exporter succeeds on a list exactly when every element is
      exportable. */
  lemma ExportItemsOk(xs: seq<Json>)
    ensures ExportItems(xs).Ok? <==> forall i :: 0 <= i < |xs| ==> Exportable(xs[i])
  {
    if ExportItems(xs).Ok? {
      forall i | 0 <= i < |xs| ensures Exportable(xs[i]) {
        ExportedExportable(xs, i);
      }
    } else if forall i :: 0 <= i < |xs| ==> Exportable(xs[i]) {
      ExportableExported(xs);
    }
  }

  lemma ExportableExported(xs: seq<Json>)
    requires forall i :: 0 <= i < |xs| ==> Exportable(xs[i])
    ensures ExportItems(xs).Ok?
  {
    var defs := Select(xs, PartDefinitionType);
    var parts := Select(xs, PartUsageType);
    NamesOkOf(defs.value, xs, PartDefinitionType);
    NamesOkOf(parts.value, xs, PartUsageType);
  }

  lemma ExportedExportable(xs: seq<Json>, i: int)
    requires ExportItems(xs).Ok? && 0 <= i < |xs|
    ensures Exportable(xs[i])
  {
    var defs := Select(xs, PartDefinitionType).value;
    var parts := Select(xs, PartUsageType).value;
    if Index(xs[i], "@type") == Ok(JStr(PartDefinitionType)) {
      SelectKeeps(xs, PartDefinitionType, i);
      var j :| 0 <= j < |defs| && defs[j] == xs[i];
    } else if Index(xs[i], "@type") == Ok(JStr(PartUsageType)) {
      SelectKeeps(xs, PartUsageType, i);
      var j :| 0 <= j < |parts| && parts[j] == xs[i];
    }
  }

  /** On a list of dicts, the only exception is a KeyError. */
  lemma ExportItemsKeyError(xs: seq<Json>)
    requires forall i :: 0 <= i < |xs| ==> xs[i].JObj?
    requires ExportItems(xs).Err?
    ensures ExportItems(xs).error == KeyError
  {
    var defs := Select(xs, PartDefinitionType);
    if defs.Err? {
      SelectKeyError(xs, PartDefinitionType);
    } else {
      var parts := Select(xs, PartUsageType);
      assert forall p :: p in defs.value ==> p.JObj?;
      assert forall p :: p in parts.value ==> p.JObj?;
      if Names(defs.value).Err? {
        NamesKeyError(defs.value);
      } else {
        NamesKeyError(parts.value);
      }
    }
  }

  /** A non-empty string is iterated by character, and a character cannot
      be indexed by a key: TypeError. */
  lemma ExportOfString(s: string)
    requires s != []
    ensures ExportText(JStr(s)) == Err(TypeError)
  {
    var xs := Iterate(JStr(s)).value;
    assert xs[0] == JStr([s[0]]);
  }

  // ---------------------------------------------------------------------
  // Export, then import

  /** The keyword the exporter writes before a name of the kind. */
  function Keyword(kind: PartKind): string {
    match kind
    case PartDefinition => DefinitionKeyword
    case PartUsage => UsageKeyword
  }

  /** A name the exporter writes in a form the importer reads back: no
      surrounding whitespace, no newline, no trailing `;` or `{`, and a usage
      name that does not begin "def" (which would read as a definition). */
  predicate PlainName(kind: PartKind, n: string) {
    n != [] && !IsSpace(n[0]) && !IsSpace(n[|n| - 1]) && '\n' !in n &&
    n[|n| - 1] != ';' && n[|n| - 1] != '{' &&
    (kind == PartUsage ==> !StartsWith(n, "def"))
  }

  function Declared(kind: PartKind, names: seq<string>): (r: seq<PartDecl>)
    ensures |r| == |names| && forall i :: 0 <= i < |names| ==> r[i] == PartDecl(kind, names[i])
  {
    seq(|names|, i requires 0 <= i < |names| => PartDecl(kind, names[i]))
  }

  /** A section header is not a declaration. */
  lemma HeaderNotParsed(level: int, n: string)
    ensures ParseLine(Render(Open(level, Package, n))) == None
  {
    var core := Package + " " + n + " {";
    assert Render(Open(level, Package, n)) == Indent(level) + (core + "\n");
    StripAround(Indent(level), core, "\n");
    RStripCharAround(core, ';', "");
    assert core + "" == core;
    NotStartsWithAt(core, UsagePrefix, 2);
  }

  /** A closing brace is not a declaration. */
  lemma CloseNotParsed(level: int)
    ensures ParseLine(Render(Close(level))) == None
  {
    var core := "}";
    assert Render(Close(level)) == Indent(level) + (core + "\n");
    StripAround(Indent(level), core, "\n");
    RStripCharAround(core, ';', "");
    assert core + "" == core;
    NotStartsWithAt(core, UsagePrefix, 0);
  }

  /** `NameAfter(" " + n)` is the name itself. */
  lemma NameAfterSpace(kind: PartKind, n: string)
    requires PlainName(kind, n)
    ensures NameAfter(" " + n) == n
  {
    RStripCharAround(" " + n, '{', "");
    assert " " + n + "" == " " + n;
    StripAround(" ", n, "");
    assert " " + (n + "") == " " + n;
  }

  /** A usage statement does not read as a definition. */
  lemma UsageIsNotDefinition(n: string)
    requires !StartsWith(n, "def")
    ensures !StartsWith(UsageKeyword + n, DefinitionPrefix)
  {
    var s := UsageKeyword + n;
    if |DefinitionPrefix| <= |s| {
      assert s[..|DefinitionPrefix|][5..8] == n[..3];
      assert DefinitionPrefix[5..8] == "def";
    }
  }

  /** A statement reads back as the declaration it was written for. */
  lemma StatementParsed(level: int, kind: PartKind, n: string)
    requires PlainName(kind, n)
    ensures ParseLine(Render(Statement(level, Keyword(kind) + n))) == Some(PartDecl(kind, n))
  {
    StatementStripped(level, kind, n);
    KeywordParsed(kind, n);
  }

  /** Stripping a statement leaves the keyword and the name. */
  lemma StatementStripped(level: int, kind: PartKind, n: string)
    requires PlainName(kind, n)
    ensures Stripped(Render(Statement(level, Keyword(kind) + n))) == Keyword(kind) + n
  {
    var text := Keyword(kind) + n;
    var core := text + ";";
    assert Render(Statement(level, text)) == Indent(level) + (core + "\n");
    assert core[0] == 'p';
    StripAround(Indent(level), core, "\n");
    RStripCharAround(text, ';', ";");
  }

  /** The keyword and the name read as the declaration. */
  lemma KeywordParsed(kind: PartKind, n: string)
    requires PlainName(kind, n)
    ensures ParseStripped(Keyword(kind) + n) == Some(PartDecl(kind, n))
  {
    var text := Keyword(kind) + n;
    assert text[..|UsagePrefix|] == UsagePrefix;
    NameAfterSpace(kind, n);
    if kind == PartDefinition {
      assert text[..|DefinitionPrefix|] == DefinitionPrefix;
      assert text[|DefinitionPrefix|..] == " " + n;
    } else {
      UsageIsNotDefinition(n);
      assert text[|UsagePrefix|..] == " " + n;
    }
  }

  /** The brace form `part def X {` (or `part X {`) of a stripped line
      opening a body reads as the same declaration as `part def X`. */
  lemma BraceParsed(kind: PartKind, n: string)
    requires PlainName(kind, n)
    ensures ParseStripped(Keyword(kind) + n + " {") == Some(PartDecl(kind, n))
  {
    var text := Keyword(kind) + n + " {";
    assert text[..|UsagePrefix|] == UsagePrefix;
    NameAfterBrace(kind, n);
    if kind == PartDefinition {
      assert text[..|DefinitionPrefix|] == DefinitionPrefix;
      assert text[|DefinitionPrefix|..] == " " + n + " {";
    } else {
      BraceNotDefinition(n);
      assert text[|UsagePrefix|..] == " " + n + " {";
    }
  }

  /** `NameAfter(" " + n + " {")` is the name itself. */
  lemma NameAfterBrace(kind: PartKind, n: string)
    requires PlainName(kind, n)
    ensures NameAfter(" " + n + " {") == n
  {
    RStripCharAround(" " + n + " ", '{', "{");
    assert " " + n + " " + "{" == " " + n + " {";
    StripAround(" ", n, " ");
    assert " " + (n + " ") == " " + n + " ";
  }

  /** A usage line in brace form does not read as a definition. */
  lemma BraceNotDefinition(n: string)
    requires !StartsWith(n, "def")
    ensures !StartsWith(UsageKeyword + n + " {", DefinitionPrefix)
  {
    var text := UsageKeyword + n + " {";
    if |n| >= 3 {
      assert text[5..8] == n[..3];
    } else {
      assert text[5 + |n|] == ' ';
    }
  }

  /** Lines that each read as the matching declaration. */
  lemma {:induction false} ParseLinesAll(lines: seq<string>, ds: seq<PartDecl>)
    requires |lines| == |ds| && forall i :: 0 <= i < |lines| ==> ParseLine(lines[i]) == Some(ds[i])
    ensures ParseLines(lines) == ds
  {
    if lines != [] {
      var n := |lines| - 1;
      ParseLinesAll(lines[..n], ds[..n]);
      ParseLinesSnoc(lines, n);
      assert lines[..n + 1] == lines && ds[..n] + [ds[n]] == ds;
    } else {
      assert ParsedLines(lines) == [];
    }
  }

  lemma StatementsParsed(level: int, kind: PartKind, names: seq<string>)
    requires forall i :: 0 <= i < |names| ==> PlainName(kind, names[i])
    ensures ParseLines(RenderAll(Statements(level, Keyword(kind), names))) == Declared(kind, names)
  {
    var lines := RenderAll(Statements(level, Keyword(kind), names));
    forall i | 0 <= i < |names| ensures ParseLine(lines[i]) == Some(PartDecl(kind, names[i])) {
      StatementParsed(level, kind, names[i]);
    }
    ParseLinesAll(lines, Declared(kind, names));
  }

  /** Headers and closing braces contribute nothing. */
  lemma Undeclared(ls: seq<Line>)
    requires forall i :: 0 <= i < |ls| ==> ls[i].Close? || (ls[i].Open? && ls[i].sectionType == Package)
    ensures ParseLines(RenderAll(ls)) == []
  {
    forall i | 0 <= i < |ls| ensures ParseLine(RenderAll(ls)[i]) == None {
      if ls[i].Close? {
        CloseNotParsed(ls[i].level);
      } else {
        HeaderNotParsed(ls[i].level, ls[i].name);
      }
    }
    ParseLinesEmpty(RenderAll(ls));
  }

  /** Undeclared lines around a block leave its declarations. */
  lemma ParseFramed(head: seq<string>, body: seq<string>, tail: seq<string>)
    requires ParseLines(head) == [] && ParseLines(tail) == []
    ensures ParseLines(head + body + tail) == ParseLines(body)
  {
    ParseLinesConcat(head + body, tail);
    ParseLinesConcat(head, body);
  }

  lemma DefinitionsParsed(defs: seq<string>)
    requires forall i :: 0 <= i < |defs| ==> PlainName(PartDefinition, defs[i])
    ensures ParseLines(RenderAll(DefinitionsLayout(defs))) == Declared(PartDefinition, defs)
  {
    if |defs| > 0 {
      var head := [Open(1, Package, DefinitionsName), Open(2, Package, PartDefinitionsName)];
      var body := Statements(3, DefinitionKeyword, defs);
      var tail := [Close(2), Close(1)];
      Undeclared(head);
      Undeclared(tail);
      StatementsParsed(3, PartDefinition, defs);
      RenderAllConcat(head + body, tail);
      RenderAllConcat(head, body);
      ParseFramed(RenderAll(head), RenderAll(body), RenderAll(tail));
    } else {
      Undeclared([]);
    }
  }

  lemma ConfigurationParsed(parts: seq<string>)
    requires forall i :: 0 <= i < |parts| ==> PlainName(PartUsage, parts[i])
    ensures ParseLines(RenderAll(ConfigurationLayout(parts))) == Declared(PartUsage, parts)
  {
    var head := [Open(1, Package, ConfigurationName)];
    var body := Statements(2, UsageKeyword, parts);
    Undeclared(head);
    Undeclared([Close(1)]);
    StatementsParsed(2, PartUsage, parts);
    RenderAllConcat(head + body, [Close(1)]);
    RenderAllConcat(head, body);
    ParseFramed(RenderAll(head), RenderAll(body), RenderAll([Close(1)]));
  }

  /** Importing the exported lines stages the part definitions, then the
      part usages, under the names they were exported with. */
  lemma ExportImportRoundTrip(defs: seq<string>, parts: seq<string>)
    requires forall i :: 0 <= i < |defs| ==> PlainName(PartDefinition, defs[i])
    requires forall i :: 0 <= i < |parts| ==> PlainName(PartUsage, parts[i])
    ensures ParseLines(SysmlText(defs, parts)) == Declared(PartDefinition, defs) + Declared(PartUsage, parts)
  {
    DefinitionsParsed(defs);
    ConfigurationParsed(parts);
    ModelParsed(DefinitionsLayout(defs), ConfigurationLayout(parts));
    RenderAllConcat(DefinitionsLayout(defs), ConfigurationLayout(parts));
    ParseLinesConcat(RenderAll(DefinitionsLayout(defs)), RenderAll(ConfigurationLayout(parts)));
  }

  /** The Model package adds no declaration to what it holds. */
  lemma ModelParsed(d: seq<Line>, c: seq<Line>)
    ensures ParseLines(RenderAll([Open(0, Package, ModelName)] + d + c + [Close(0)])) == ParseLines(RenderAll(d + c))
  {
    var m := [Open(0, Package, ModelName)];
    var ls := d + c;
    assert m + d + c + [Close(0)] == m + ls + [Close(0)];
    Undeclared(m);
    Undeclared([Close(0)]);
    RenderAllConcat(m + ls, [Close(0)]);
    RenderAllConcat(m, ls);
    ParseFramed(RenderAll(m), RenderAll(ls), RenderAll([Close(0)]));
  }

  // ---------------------------------------------------------------------
  // Export path

  /** `s.rfind(c)`: the last index of `c`, or -1. */
  function RFind(s: string, c: char): (r: int)
    ensures -1 <= r < |s|
    ensures r >= 0 ==> s[r] == c
    ensures forall i :: r < i < |s| ==> s[i] != c
  {
    if s == [] then -1
    else if s[|s| - 1] == c then |s| - 1
    else RFind(s[..|s| - 1], c)
  }

  /** POSIX `os.path.splitext(p)`: the extension starts at the last dot of
      the last path component, unless everything before that dot in the
      component is dots. */
  function SplitExt(p: string): (r: (string, string))
    ensures r.0 + r.1 == p
    ensures r.1 == [] || (r.1[0] == '.' && '/' !in r.1)
  {
    var sep := RFind(p, '/');
    var dot := RFind(p, '.');
    if dot > sep && exists i | sep < i < dot :: p[i] != '.' then
      assert p[..dot] + p[dot..] == p;
      assert forall i :: dot <= i < |p| ==> p[i] != '/';
      (p[..dot], p[dot..])
    else (p, "")
  }

  /** The path `export_to_file(p)` writes to, or its ValueError. */
  function ExportPath(p: string): (r: Result<string>)
    ensures r.Ok? <==> SplitExt(p).1 == "" || SplitExt(p).1 == Extension
    ensures r.Ok? ==> EndsWith(r.value, Extension) && StartsWith(r.value, p)
    ensures r.Err? ==> r.error == ValueError("Invalid file extension '" + SplitExt(p).1 + "'. Only '.sysml' is allowed.")
  {
    var ext := SplitExt(p).1;
    if ext == "" then
      assert (p + Extension)[..|p|] == p;
      Ok(p + Extension)
    else if ext != Extension then Err(ValueError("Invalid file extension '" + ext + "'. Only '.sysml' is allowed."))
    else
      assert p[|p| - |ext|..] == ext;
      Ok(p)
  }

  /** Every path the exporter accepts passes the reader's extension check. */
  lemma ExportPathReadable(p: string, lines: seq<string>)
    requires ExportPath(p).Ok? && lines != []
    ensures ReadSysmlFile(ExportPath(p).value, Ok(lines)) == Ok(lines)
  {
  }

  /** POSIX `os.path.dirname(p)`: everything up to the last slash, without
      its trailing slashes unless it is all slashes. */
  function DirName(p: string): (r: string)
    ensures |r| <= |p| && r == p[..|r|]
    ensures r != [] ==> r[|r| - 1] == '/' ==> forall i :: 0 <= i < |r| ==> r[i] == '/'
  {
    var head := p[..RFind(p, '/') + 1];
    if exists i | 0 <= i < |head| :: head[i] != '/' then
      RStripCharShape(head, '/');
      RStripChar(head, '/')
    else head
  }

  /** What `export_to_file` finds around it: the paths that exist, the
      error `os.makedirs` raises if it fails, and the answer typed at the
      overwrite prompt. */
  datatype ExportEnv = ExportEnv(existing: set<string>, makedirsError: Option<string>, answer: string)

  /** `input(...).strip().lower() == "y"`. */
  predicate Confirmed(answer: string) {
    Strip(answer) == "y" || Strip(answer) == "Y"
  }

  /** `export_to_file(filePath)`: the path and text written, None when the
      user declines to overwrite, or the exception raised. */
  function ExportToFile(contents: seq<string>, filePath: string, env: ExportEnv): Result<Option<(string, string)>> {
    match ExportPath(filePath)
    case Err(e) => Err(e)
    case Ok(path) =>
      var folder := DirName(path);
      if folder != "" && folder !in env.existing && env.makedirsError.Some? then
        Err(OSError("Failed to access or create directory '" + folder + "': " + env.makedirsError.value))
      else if path in env.existing && !Confirmed(env.answer) then Ok(None)
      else Ok(Some((path, Join(contents))))
  }

  /** The file is written, with the lines joined, exactly when the path has
      no other extension, the folder is there or can be made, and the file
      is new or its overwrite confirmed; what is written is readable. */
  lemma ExportToFileWrites(contents: seq<string>, filePath: string, env: ExportEnv)
    ensures ExportToFile(contents, filePath, env).Ok? <==>
      ExportPath(filePath).Ok? &&
      (DirName(ExportPath(filePath).value) == "" || DirName(ExportPath(filePath).value) in env.existing || env.makedirsError.None?)
    ensures ExportToFile(contents, filePath, env) == Ok(None) <==>
      ExportToFile(contents, filePath, env).Ok? && ExportPath(filePath).value in env.existing && !Confirmed(env.answer)
    ensures ExportToFile(contents, filePath, env).Ok? && ExportToFile(contents, filePath, env).value.Some? ==>
      var (path, text) := ExportToFile(contents, filePath, env).value.value;
      text == Join(contents) && StartsWith(path, filePath) && EndsWith(path, Extension)
  {
  }

  lemma {:induction false} RFindAppend(s: string, t: string, c: char)
    ensures c !in t ==> RFind(s + t, c) == RFind(s, c)
    ensures c in t ==> RFind(s + t, c) == |s| + RFind(t, c)
    decreases |t|
  {
    if t == [] {
      assert s + t == s;
    } else {
      var st := s + t;
      assert st[|st| - 1] == t[|t| - 1];
      assert st[..|st| - 1] == s + t[..|t| - 1];
      RFindAppend(s, t[..|t| - 1], c);
      if t[|t| - 1] != c {
        assert c in t <==> c in t[..|t| - 1];
      }
    }
  }

  lemma ExtensionShape()
    ensures '/' !in Extension && '.' in Extension && RFind(Extension, '.') == 0
  {
    assert forall i :: 1 <= i < |Extension| ==> 'a' <= Extension[i] <= 'z';
    assert Extension[0] == '.';
  }

  /** Appending the extension to a path without one gives it that
      extension. */
  lemma SplitExtAppended(p: string, i: int)
    requires RFind(p, '/') < i < |p| && p[i] != '.'
    ensures SplitExt(p + Extension) == (p, Extension)
  {
    var q := p + Extension;
    ExtensionShape();
    RFindAppend(p, Extension, '/');
    RFindAppend(p, Extension, '.');
    assert q[i] == p[i];
    assert q[..|p|] == p && q[|p|..] == Extension;
  }

  /** Normalising an export path twice changes nothing, provided its last
      component has a character other than a dot. */
  lemma ExportPathIdempotent(p: string, i: int)
    requires ExportPath(p).Ok?
    requires RFind(p, '/') < i < |p| && p[i] != '.'
    ensures ExportPath(ExportPath(p).value) == ExportPath(p)
  {
    if SplitExt(p).1 == "" {
      SplitExtAppended(p, i);
    }
  }
}
