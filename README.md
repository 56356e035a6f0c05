# File configuration source

This project models the file-backed configuration source of the config-rs
library: the `File<T>` builder in `src/file/mod.rs` and its implementation of
`Source::collect`.

A `File` has four fields:

- `source`: a literal string or a file name.
- `namespace`: an optional key that scopes the parsed document.
- `format`: an optional file format, which selects the parser.
- `required`: a flag.

Two constructors build a `File`. `from_str` builds one over a string and
`new` builds one over a file name. Both store the given format, set
`required` to true and leave the namespace unset. Two fluent setters,
`required` and `namespace`, each overwrite one field in place. `collect`
works in two steps. First it resolves the source, with the stored format,
into an identifier (`uri`) and the raw contents. Then it parses the
contents with the stored format and namespace. A resolution error is
wrapped as `ConfigError::Foreign`. A parse error is wrapped as
`ConfigError::FileParse`, carrying the identifier that resolution
returned.

Layout:

- `wrappers.dfy`, module `Wrappers`: `Option` and `Result`.
- `file.dfy`, module `ConfigFile`: the data model, the `File` class and
  the lemmas.

Source resolution (`FileSource::resolve`) and format parsing
(`FileFormat::parse`) are defined in submodules that are not part of this
model. They are passed to `Collect` as function values (`Resolver`,
`Parser`), so every property holds for any resolver and any parser. The
value type, the format, the identifier and both error types are opaque
types.

A builder chain such as `File::new(name, f).required(false).namespace("a")`
is modelled as a sequence of `Setter` calls applied to a `FileConfig`
value. `FileConfig` holds the four fields. Each setter method of the class
is specified by `FileConfig.Set`: each setter call changes the object's
`Config()` by one `FileConfig.Set` step, and `SetAllAppend` composes such
steps into `FileConfig.SetAll`.

The field comment at src/file/mod.rs:23 says that a required `File` will
error if it cannot be found, which implies that a file that is not
required would not. But `collect` (src/file/mod.rs:62-75) never reads
`required`, and it turns every resolution error into `Foreign`. This model
follows the code: `CollectIgnoresRequired` proves that the flag has no
effect on the result.

## Model

| member | source | states |
|---|---|---|
| `ConfigFile.File.FromStr` | src/file/mod.rs:28-35 | the new file's source is the string, its format is `Some(f)`, `required` is true and the namespace is `None`; so the invariant `format.Some?` holds |
| `ConfigFile.File.New` | src/file/mod.rs:39-46 | the new file's source is the named file, its format is `Some(f)`, `required` is true and the namespace is `None`; so the invariant holds |
| `ConfigFile.File.SetRequired` | src/file/mod.rs:50-53 | `required` becomes `b`; source, namespace and format are unchanged; the new state is `FileConfig.Set(Required(b))` of the old one; the invariant is kept |
| `ConfigFile.File.SetNamespace` | src/file/mod.rs:55-58 | the namespace becomes `Some(n)`; source, `required` and format are unchanged; the new state is `FileConfig.Set(Namespace(n))` of the old one; the invariant is kept |
| `ConfigFile.FileConfig.Set` | src/file/mod.rs:49-59 | one setter call changes only its own field, to the given value; source and format never change, so validity is kept |
| `ConfigFile.FileConfig.SetAll` | src/file/mod.rs:49-59 | no chain of setter calls changes the source or the format, so no chain can make the `unwrap` of the format fail |
| `ConfigFile.SetAllAppend` | src/file/mod.rs:50-58 | the setters return the builder for chaining: a chain split in two is the second part applied to the result of the first |
| `ConfigFile.NamespaceLastWins` | src/file/mod.rs:55-58 | after a chain, the namespace is the one from the last `namespace` call, whatever came before and whatever `required` calls follow |
| `ConfigFile.NamespaceUntouched` | src/file/mod.rs:50-53 | a chain of only `required` calls leaves the namespace as it was |
| `ConfigFile.RequiredLastWins` | src/file/mod.rs:50-53 | after a chain, `required` is the value of the last `required` call |
| `ConfigFile.RequiredUntouched` | src/file/mod.rs:55-58 | a chain of only `namespace` calls leaves `required` as it was |
| `ConfigFile.File.Collect` | src/file/mod.rs:62-75 | with a format present: the result is `Foreign(e)` exactly when resolution fails with `e`; it is `FileParse(uri, cause)` exactly when resolution gives `(uri, contents)` and parsing them with the stored format and namespace fails with `cause`; and it is `Success(m)` exactly when both succeed, with `m` the parsed mapping unchanged |
| `ConfigFile.ParseNotInvokedOnResolveFailure` | src/file/mod.rs:64-66 | when resolution fails the parser is not consulted: any two parsers give the same result |
| `ConfigFile.ParseCalledWithStoredSettings` | src/file/mod.rs:69 | the parser is consulted only at the stored format, the resolved identifier and contents, and the stored namespace |
| `ConfigFile.CollectIgnoresRequired` | src/file/mod.rs:62-75 | two files that differ only in `required` collect the same result |

## Left out

- The bodies of `FileSource::resolve` and `FileFormat::parse` are not part of this model. This covers the string-backed and filesystem-backed sources, extension search, format discovery and the per-format decoders. They are abstract function parameters of `Collect`.
- The fallback that turns a missing optional source into an empty mapping is not implemented by this `collect`, so it is not modelled.
- The internals of `Value` and of the error types are not part of this model. Only the two `ConfigError` variants that `collect` builds are modelled.
- The `&mut Self` return of the setters is not modelled: the methods return nothing. Chaining is modelled by `FileConfig.SetAll` over a sequence of calls.
- Rust's generic parameter `T: FileSource` is modelled as a datatype with one variant per source kind that the two constructors build.
- Concurrent access is not modelled. `collect` takes `&self`, so it is a function that reads the object's fields and changes none of them. Two calls with the same resolver and parser return equal results because `Collect` is a function.
