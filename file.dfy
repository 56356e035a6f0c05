/**
  A file-backed configuration source: the `File` builder and its `collect`.

  A `File` holds where its text comes from (a literal string or a file
  name), an optional namespace, the format that selects the parser, and a
  required flag. `collect` first asks the source for an identifier and the
  raw contents, then asks the format to parse those contents, and routes
  each of the two failures to its own error variant.

  The bodies of source resolution and format parsing live in modules that
  are not part of this model; both are passed to `Collect` as function
  values, so every property below holds whatever they do.
 */
module ConfigFile {
  import opened Wrappers

  /** A parsed configuration value (a tagged union defined elsewhere). */
  type Value

  /** A file format: it selects the decoder that `parse` dispatches to. */
  type FileFormat

  /** The identifier that resolution reports for the resolved text. */
  type Uri

  /** The error that source resolution fails with. */
  type ResolveError

  /** The error that a format's decoder fails with. */
  type ParseError

  /** Where a `File` takes its text from: a literal string or a file name. */
  datatype FileSource =
    | FileSourceString(text: string)
    | FileSourceFile(name: string)

  /** The two variants of the configuration error that `collect` produces. */
  datatype ConfigError =
    | Foreign(err: ResolveError)
    | FileParse(uri: Uri, cause: ParseError)

  /** Source resolution: the source and the stored format give the
      identifier and the contents, or an error. */
  type Resolver = (FileSource, Option<FileFormat>) -> Result<(Uri, string), ResolveError>

  /** Parsing: the format, the identifier, the contents and the namespace
      give the key/value mapping, or an error. */
  type Parser = (FileFormat, Uri, string, Option<string>) -> Result<map<string, Value>, ParseError>

  /** The result type of `collect`. */
  type Collected = Result<map<string, Value>, ConfigError>

  /** One call of a fluent setter. */
  datatype Setter =
    | Required(required: bool)
    | Namespace(namespace: string)

  /** The four fields of a `File`, as a value. */
  datatype FileConfig = FileConfig(
    source: FileSource,
    namespace: Option<string>,
    format: Option<FileFormat>,
    required: bool)
  {
    /** The invariant that keeps the unwrap of `format` in `collect` from
        failing: a format is always present. */
    predicate Valid() {
      format.Some?
    }

    /** The configuration after one setter call: the setter's own field
        takes the new value and every other field keeps its old one. */
    function Set(s: Setter): (r: FileConfig)
      ensures r.source == source && r.format == format
      ensures s.Required? ==> r.required == s.required && r.namespace == namespace
      ensures s.Namespace? ==> r.namespace == Some(s.namespace) && r.required == required
      ensures r.Valid() == Valid()
    {
      match s
      case Required(b) => this.(required := b)
      case Namespace(n) => this.(namespace := Some(n))
    }

    /** The configuration after a chain of setter calls, made in order.
        No chain changes the source or the format, so no chain can break
        the invariant. */
    function SetAll(calls: seq<Setter>): (r: FileConfig)
      ensures r.source == source && r.format == format
      ensures r.Valid() == Valid()
      decreases |calls|
    {
      if calls == [] then this else Set(calls[0]).SetAll(calls[1..])
    }
  }

  /** A chain split in two is the second part applied after the first. */
  lemma {:induction false} SetAllAppend(c: FileConfig, a: seq<Setter>, b: seq<Setter>)
    ensures c.SetAll(a + b) == c.SetAll(a).SetAll(b)
    decreases |a|
  {
    if a == [] {
      assert a + b == b;
    } else {
      assert (a + b)[1..] == a[1..] + b;
      SetAllAppend(c.Set(a[0]), a[1..], b);
    }
  }

  /** A chain with no `namespace` call leaves the namespace as it was. */
  lemma {:induction false} NamespaceUntouched(c: FileConfig, calls: seq<Setter>)
    requires forall i :: 0 <= i < |calls| ==> calls[i].Required?
    ensures c.SetAll(calls).namespace == c.namespace
    decreases |calls|
  {
    if calls != [] {
      NamespaceUntouched(c.Set(calls[0]), calls[1..]);
    }
  }

  /** Repeated `namespace` calls: the last one wins, whatever came before
      it and whatever `required` calls follow it. */
  lemma {:induction false} NamespaceLastWins(c: FileConfig, calls: seq<Setter>, i: nat)
    requires i < |calls| && calls[i].Namespace?
    requires forall j :: i < j < |calls| ==> calls[j].Required?
    ensures c.SetAll(calls).namespace == Some(calls[i].namespace)
  {
    SetAllAppend(c, calls[..i + 1], calls[i + 1..]);
    assert calls[..i + 1] + calls[i + 1..] == calls;
    SetAllAppend(c, calls[..i], [calls[i]]);
    assert calls[..i] + [calls[i]] == calls[..i + 1];
    var d := c.SetAll(calls[..i]);
    assert [calls[i]][1..] == [];
    assert d.SetAll([calls[i]]) == d.Set(calls[i]);
    NamespaceUntouched(d.Set(calls[i]), calls[i + 1..]);
  }

  /** A chain with no `required` call leaves the flag as it was. */
  lemma {:induction false} RequiredUntouched(c: FileConfig, calls: seq<Setter>)
    requires forall i :: 0 <= i < |calls| ==> calls[i].Namespace?
    ensures c.SetAll(calls).required == c.required
    decreases |calls|
  {
    if calls != [] {
      RequiredUntouched(c.Set(calls[0]), calls[1..]);
    }
  }

  /** Repeated `required` calls: the last one wins. */
  lemma {:induction false} RequiredLastWins(c: FileConfig, calls: seq<Setter>, i: nat)
    requires i < |calls| && calls[i].Required?
    requires forall j :: i < j < |calls| ==> calls[j].Namespace?
    ensures c.SetAll(calls).required == calls[i].required
  {
    SetAllAppend(c, calls[..i + 1], calls[i + 1..]);
    assert calls[..i + 1] + calls[i + 1..] == calls;
    SetAllAppend(c, calls[..i], [calls[i]]);
    assert calls[..i] + [calls[i]] == calls[..i + 1];
    var d := c.SetAll(calls[..i]);
    assert [calls[i]][1..] == [];
    assert d.SetAll([calls[i]]) == d.Set(calls[i]);
    RequiredUntouched(d.Set(calls[i]), calls[i + 1..]);
  }

  /** The configurable file source. A `File` is built by one of its two
      constructors and then changed only by its two setters. */
  class File {
    var source: FileSource
    /** Namespace to restrict the configuration to. */
    var namespace: Option<string>
    /** Format of the file, which selects the parser. */
    var format: Option<FileFormat>
    /** Whether a missing file is meant to be an error. */
    var required: bool

    /** The current fields as a value. */
    function Config(): FileConfig
      reads this
    {
      FileConfig(source, namespace, format, required)
    }

    ghost predicate Valid()
      reads this
    {
      Config().Valid()
    }

    /** A source over a literal string, parsed with the given format. */
    constructor FromStr(s: string, f: FileFormat)
      ensures Valid()
      ensures source == FileSourceString(s) && format == Some(f)
      ensures required && namespace == None
    {
      source := FileSourceString(s);
      namespace := None;
      format := Some(f);
      required := true;
    }

    /** A source over the file with the given name, parsed with the given
        format. */
    constructor New(name: string, f: FileFormat)
      ensures Valid()
      ensures source == FileSourceFile(name) && format == Some(f)
      ensures required && namespace == None
    {
      source := FileSourceFile(name);
      namespace := None;
      format := Some(f);
      required := true;
    }

    /** Sets the required flag; nothing else changes. */
    method SetRequired(b: bool)
      modifies this
      ensures Config() == old(Config()).Set(Required(b))
      ensures required == b
      ensures source == old(source) && namespace == old(namespace) && format == old(format)
      ensures Valid() == old(Valid())
    {
      required := b;
    }

    /** Sets the namespace; nothing else changes. */
    method SetNamespace(n: string)
      modifies this
      ensures Config() == old(Config()).Set(Namespace(n))
      ensures namespace == Some(n)
      ensures source == old(source) && required == old(required) && format == old(format)
      ensures Valid() == old(Valid())
    {
      namespace := Some(n);
    }

    /** Collects the key/value mapping: resolve the source with the stored
        format, then parse the contents with that format and the stored
        namespace. A resolution failure is `Foreign` and parse is not
        consulted; a parse failure is `FileParse` with the identifier that
        resolution returned; otherwise the parsed mapping is the result. */
    function Collect(resolve: Resolver, parse: Parser): (r: Collected)
      reads this
      requires Valid()
      ensures (r.Failure? && r.error.Foreign?) <==> resolve(source, format).Failure?
      ensures r.Failure? && r.error.Foreign? ==>
                r.error.err == resolve(source, format).error
      ensures (r.Failure? && r.error.FileParse?) <==>
                (resolve(source, format).Success? &&
                 var (uri, contents) := resolve(source, format).value;
                 parse(format.value, uri, contents, namespace).Failure?)
      ensures r.Failure? && r.error.FileParse? ==>
                var (uri, contents) := resolve(source, format).value;
                r.error.uri == uri && r.error.cause == parse(format.value, uri, contents, namespace).error
      ensures r.Success? <==>
                (resolve(source, format).Success? &&
                 var (uri, contents) := resolve(source, format).value;
                 parse(format.value, uri, contents, namespace).Success?)
      ensures r.Success? ==>
                var (uri, contents) := resolve(source, format).value;
                r.value == parse(format.value, uri, contents, namespace).value
    {
      match resolve(source, format)
      case Failure(err) => Failure(Foreign(err))
      case Success((uri, contents)) =>
        match parse(format.value, uri, contents, namespace)
        case Failure(cause) => Failure(FileParse(uri, cause))
        case Success(m) => Success(m)
    }
  }

  /** When resolution fails, the parser is never consulted: any two parsers
      give the same result. */
  lemma ParseNotInvokedOnResolveFailure(f: File, resolve: Resolver, p: Parser, q: Parser)
    requires f.Valid()
    requires resolve(f.source, f.format).Failure?
    ensures f.Collect(resolve, p) == f.Collect(resolve, q)
  {
  }

  /** The parser is consulted only with the stored format, the resolved
      identifier and contents, and the stored namespace: two parsers that
      agree there give the same result. */
  lemma ParseCalledWithStoredSettings(f: File, resolve: Resolver, p: Parser, q: Parser)
    requires f.Valid()
    requires resolve(f.source, f.format).Success?
    requires var (uri, contents) := resolve(f.source, f.format).value;
             p(f.format.value, uri, contents, f.namespace) == q(f.format.value, uri, contents, f.namespace)
    ensures f.Collect(resolve, p) == f.Collect(resolve, q)
  {
  }

  /** As written, `collect` never reads the required flag: two files that
      differ only in it collect the same result. */
  lemma CollectIgnoresRequired(f: File, g: File, resolve: Resolver, parse: Parser)
    requires f.Valid()
    requires f.source == g.source && f.namespace == g.namespace && f.format == g.format
    ensures g.Valid()
    ensures f.Collect(resolve, parse) == g.Collect(resolve, parse)
  {
  }
}
