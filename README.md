# A verified model of the webpack configuration's logic

The repository is a single `webpack.config.js` that configures the webpack
bundler for a React/TypeScript front end. Almost all of it is constant data
handed to webpack and its plugins. This project models the parts of the file
that compute something, and proves what they promise:

- **`getClientEnv`** (module `ClientEnvironment`): the map of compile-time
  constants exposed to client code. It is seeded with `NODE_ENV` and gains every
  process variable whose name passes `/^REACT_APP/i`. It is modelled twice. The
  function `ClientEnv` is the specification. The method `GetClientEnv` walks the
  environment's keys in an arbitrary order and inserts into an accumulator, as the
  source's `reduce` does. It is proved equal to `ClientEnv`, so the key order of
  `Object.keys` cannot matter.
- **The exported function** (module `WebpackConfig`): the per-field dispatch on
  `webpackEnv`. `Configure` returns a record of the fields that depend on the
  environment: mode, chunk file name, `minimize`, `transpileOnly`, the plugin
  list, cache type and devtool. Its contract is the full truth table for
  "production", "development" and any other string. The lemmas prove which
  features belong to exactly one environment, and how the `GENERATE_SOURCEMAP`
  flag acts. `RuntimeChunkName` models the runtime chunk naming closure.
- **The manifest `generate` callback** (module `Manifest`): a left fold of file
  records into the seed map, in which the last record with a name wins. It also
  filters the `main` entry point's files, dropping every name containing `.map`.
- Modules `Js` and `Strings` hold the JavaScript idioms used above. These are
  `cond && value` (a value or `false`), `Array.prototype.filter`,
  `.filter(Boolean)`, the case-insensitive anchored prefix test and the
  substring test.

The model follows the code in three places where a reader might expect
otherwise:

- The environment argument is any string. It is not limited to the two
  documented values. Any other string yields `false` for the chunk file name,
  the cache type and the devtool, and turns off `minimize` and `transpileOnly`.
- Source maps in production are turned off only when `GENERATE_SOURCEMAP` is
  exactly the string `false`. Any other value, or no value, leaves them on. A
  merely present flag therefore does not turn them off.
- The dev-server section is constant and present in every environment. It is
  not modelled (see below).

## Model

| member | source | states |
|---|---|---|
| `Js.When` | webpack.config.js:37 | `cond && value` for a truthy value is `false` exactly when the condition fails, and the value otherwise (the idiom of lines 37, 102, 105 and 119) |
| `Js.Filter` | webpack.config.js:93 | `filter` keeps exactly the elements satisfying the predicate, with the same multiplicities, and is never longer than its input |
| `Js.FilterAppend` | webpack.config.js:93 | filtering a concatenation is the concatenation of the filtered parts, so the original order is kept |
| `Js.Truthy` | webpack.config.js:87-103 | `.filter(Boolean)` keeps exactly the values of the non-`false` slots, and drops something iff some slot is `false` |
| `Js.TruthyAppend` | webpack.config.js:103 | `.filter(Boolean)` keeps the order of the slots it keeps |
| `Strings.HasReactAppPrefix` | webpack.config.js:19 | `/^REACT_APP/i` accepts a key iff it has at least nine characters and each of the first nine is the upper- or lower-case form of the pattern's character |
| `Strings.ReactAppPrefixExamples` | webpack.config.js:19 | upper, lower and mixed-case prefixes pass; `MY_REACT_APP_KEY`, `REACT_AP`, `NODE_ENV` and `SECRET_KEY` do not (the pattern is anchored) |
| `Strings.ContainsIffOccursAt` | webpack.config.js:93 | the substring test used for `/\.map/` holds iff the pattern starts at some index of the string |
| `ClientEnvironment.ClientEnv` | webpack.config.js:15-26 | every key is `NODE_ENV` or an exposed process variable; every exposed process variable appears with exactly its process value; `NODE_ENV` maps to the argument |
| `ClientEnvironment.NotExposedNodeEnv` | webpack.config.js:19 | `NODE_ENV` fails the prefix test, so no process variable can override the seed |
| `ClientEnvironment.SecretsStayHidden` | webpack.config.js:18-19 | a process variable failing the prefix test (other than `NODE_ENV`) is never in the client environment |
| `ClientEnvironment.OnlyExposedVariablesMatter` | webpack.config.js:18-22 | setting or changing a variable that fails the test leaves the client environment unchanged |
| `ClientEnvironment.GetClientEnv` | webpack.config.js:18-23 | the filter-and-insert loop over the keys, in any order, yields exactly `ClientEnv` |
| `WebpackConfig.ShouldUseSourceMap` | webpack.config.js:11 | the flag is off iff `GENERATE_SOURCEMAP` is set to the exact string `false` |
| `WebpackConfig.RuntimeChunkName` | webpack.config.js:44 | the runtime chunk name is `runtime-` followed by the entry point's name |
| `WebpackConfig.RuntimeChunkNameInjective` | webpack.config.js:44 | distinct entry points get distinct runtime chunk names |
| `WebpackConfig.Configure` | webpack.config.js:28-131 | the truth table of mode, chunk file name, `minimize`, `transpileOnly`, cache type, devtool and plugin list for production, development and any other string |
| `WebpackConfig.TruthyOfPlugins` | webpack.config.js:87-103 | the filtered plugin list is the four fixed plugins in order, then the analyzer iff its slot holds it |
| `WebpackConfig.ProductionOnlyFeatures` | webpack.config.js:37-105 | minimisation, the bundle analyzer, the filesystem cache and a content-hashed chunk name each occur iff the environment is production |
| `WebpackConfig.ContentHashInHashedName` | webpack.config.js:37 | the production chunk name contains `[contenthash:8]` |
| `WebpackConfig.NoContentHashInPlainName` | webpack.config.js:37 | the development chunk name contains no content hash |
| `WebpackConfig.DevelopmentOnlyFeatures` | webpack.config.js:37-119 | `transpileOnly`, the memory cache, the cheap module source map and the plain chunk name each occur iff the environment is development |
| `WebpackConfig.SourceMapFlag` | webpack.config.js:115-119 | devtool is `source-map` iff production with the flag on, `false` in production with it off, and the flag changes nothing outside production |
| `WebpackConfig.SourceMapOptOut` | webpack.config.js:11 | `GENERATE_SOURCEMAP=false` turns the production devtool off whatever else is set |
| `WebpackConfig.DefinedConstants` | webpack.config.js:89 | the constants given to the define plugin have `NODE_ENV` equal to the environment argument and otherwise only exposed process variables with their values |
| `Manifest.ManifestFiles` | webpack.config.js:92 | the result's keys are the seed's plus the record names; a seed entry no record names is kept; each name maps to the path of its last record |
| `Manifest.EveryManifestEntryAccounted` | webpack.config.js:92 | every result entry is an unnamed seed entry or comes from the last record with that name |
| `Manifest.ManifestFilesAppend` | webpack.config.js:92 | folding `a + b` is folding `b` into the result of folding `a` |
| `Manifest.IsEntryFile` | webpack.config.js:93 | a file name is kept iff `.map` starts at no position in it, so a `.map` anywhere drops it, not only at the end |
| `Manifest.EntryFiles` | webpack.config.js:93 | the entry files are exactly the `main` names without `.map` anywhere in them, with their multiplicities |
| `Manifest.EntryFilesAppend` | webpack.config.js:93 | the entry files keep the order of the `main` list |
| `Manifest.EntryFilesExample` | webpack.config.js:93 | from `main.js`, `main.js.map` and `main.map.js` only `main.js` is kept, since `.map` in the middle also drops a name |
| `Manifest.Generate` | webpack.config.js:91-95 | with a `main` entry point, the result is the folded manifest (keys, last record wins, unnamed seed entries kept) and exactly the `main` names without `.map`, in order and with their multiplicities; without one, the callback fails |

## Left out

- Module loading (`require`), `path.resolve` of the fixed paths and `dotenv` loading (lines 1-10, 12-13): these are foreign libraries and filesystem access. Line 11, the source-map flag, is modelled by `ShouldUseSourceMap`. The process environment is an input map, taken after `dotenv` has filled it.
- `JSON.stringify` of the client environment (line 17): the model stops at the map that is serialised.
- The key order of JavaScript objects: the client environment and the manifest are maps, so the order of keys in the serialised JSON is not modelled.
- Constant configuration data: `entry`, `output.path`, `splitChunks`, the `minimizer` list, the loader rules and their regular expressions, `resolve.extensions`, `devServer` and `stats` (lines 34-36, 40-42, 47-86, 107-114, 120-130). They do not depend on any input and mean something only to webpack. The one exception is the `ts-loader` option `transpileOnly` (line 59), which depends on the environment and is modelled by `Configure`.
- Plugin construction and behaviour (HTML, define, manifest, type-checker, bundle analyzer, terser): plugins are tags in a list; only the define plugin keeps its argument.
- Bundling itself (module graph, chunk splitting, hashing, minification): this is webpack's behaviour, not the file's.
- General regular expressions: `/^REACT_APP/i` is an ASCII case-insensitive prefix test and `/\.map/` a substring test. These are exact for these two literal patterns, because a non-Unicode `/i` pattern never equates a non-ASCII character with an ASCII one.
- The time at which the flag is read: `GENERATE_SOURCEMAP` is read when the file loads and the client environment when the function is called. `Configure` therefore takes the flag and the environment map as separate inputs.
