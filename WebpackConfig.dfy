/**
 The function exported by webpack.config.js, restricted to the fields whose
 value depends on its `webpackEnv` argument (and on the `GENERATE_SOURCEMAP`
 flag): the mode, the chunk file name template, minimisation, the `ts-loader`
 `transpileOnly` option, the plugin list, the cache type and the devtool.
 Every field is a per-field branch on `webpackEnv === "development"` and
 `webpackEnv === "production"`; a string that is neither falls through to
 the `false` that `cond && value` yields.
 */
module WebpackConfig {
  import opened Js
  import opened Strings
  import opened ClientEnvironment

  const Development: string := "development"
  const Production: string := "production"

  const HashedChunkFilename: string := "static/js/[name].[contenthash:8].chunk.js"
  const PlainChunkFilename: string := "static/js/[name].chunk.js"
  const ContentHash: string := "[contenthash:8]"

  /** The plugins of the configuration, as tags. The `DefinePlugin` carries the
      client environment it is given (before serialisation). */
  datatype Plugin =
    | HtmlWebpackPlugin
    | DefinePlugin(processEnv: map<string, string>)
    | ManifestPlugin
    | ForkTsCheckerPlugin
    | BundleAnalyzerPlugin

  /** The environment-dependent part of the configuration object. */
  datatype Config = Config(
    mode: string,
    chunkFilename: OrFalse<string>,
    minimize: bool,
    transpileOnly: bool,
    plugins: seq<Plugin>,
    cacheType: OrFalse<string>,
    devtool: OrFalse<string>)

  /** The source-map flag read when webpack.config.js loads (line 11): source maps
      are on unless `GENERATE_SOURCEMAP` is set to exactly the string `false`;
      an unset variable, or any other value, leaves them on. */
  function ShouldUseSourceMap(process: map<string, string>): (use: bool)
    ensures !use <==> "GENERATE_SOURCEMAP" in process && process["GENERATE_SOURCEMAP"] == "false"
  {
    if "GENERATE_SOURCEMAP" in process then process["GENERATE_SOURCEMAP"] != "false" else true
  }

  /** The name given to the runtime chunk of an entry point. */
  function RuntimeChunkName(entryName: string): (name: string)
    ensures |name| == |"runtime-"| + |entryName|
    ensures name[..|"runtime-"|] == "runtime-" && name[|"runtime-"|..] == entryName
  {
    "runtime-" + entryName
  }

  /** Distinct entry points never share a runtime chunk. */
  lemma RuntimeChunkNameInjective(a: string, b: string)
    requires RuntimeChunkName(a) == RuntimeChunkName(b)
    ensures a == b
  {
  }

  /** The exported function for `webpackEnv`, with the source-map flag read when
      the file was loaded and the process environment read at the call. */
  function Configure(webpackEnv: string, shouldUseSourceMap: bool, process: map<string, string>): (c: Config)
    ensures c.mode == webpackEnv
    ensures webpackEnv == Production ==>
      && c.chunkFilename == Is(HashedChunkFilename)
      && c.minimize
      && !c.transpileOnly
      && c.cacheType == Is("filesystem")
      && c.devtool == (if shouldUseSourceMap then Is("source-map") else False)
      && c.plugins == [HtmlWebpackPlugin, DefinePlugin(ClientEnv(webpackEnv, process)),
                       ManifestPlugin, ForkTsCheckerPlugin, BundleAnalyzerPlugin]
    ensures webpackEnv == Development ==>
      && c.chunkFilename == Is(PlainChunkFilename)
      && !c.minimize
      && c.transpileOnly
      && c.cacheType == Is("memory")
      && c.devtool == Is("cheap-module-source-map")
      && c.plugins == [HtmlWebpackPlugin, DefinePlugin(ClientEnv(webpackEnv, process)),
                       ManifestPlugin, ForkTsCheckerPlugin]
    ensures webpackEnv != Production && webpackEnv != Development ==>
      && c.chunkFilename == False
      && !c.minimize
      && !c.transpileOnly
      && c.cacheType == False
      && c.devtool == False
      && c.plugins == [HtmlWebpackPlugin, DefinePlugin(ClientEnv(webpackEnv, process)),
                       ManifestPlugin, ForkTsCheckerPlugin]
  {
    var isEnvDevelopment := webpackEnv == Development;
    var isEnvProduction := webpackEnv == Production;
    var clientEnv := ClientEnv(webpackEnv, process);
    var analyzer := When(isEnvProduction, BundleAnalyzerPlugin);
    var slots := [Is(HtmlWebpackPlugin), Is(DefinePlugin(clientEnv)), Is(ManifestPlugin),
                  Is(ForkTsCheckerPlugin), analyzer];
    TruthyOfPlugins(HtmlWebpackPlugin, DefinePlugin(clientEnv), ManifestPlugin, ForkTsCheckerPlugin, analyzer);
    Config(
      mode := webpackEnv,
      chunkFilename := if isEnvProduction then Is(HashedChunkFilename) else When(isEnvDevelopment, PlainChunkFilename),
      minimize := isEnvProduction,
      transpileOnly := isEnvDevelopment,
      plugins := Truthy(slots),
      cacheType := if isEnvDevelopment then Is("memory") else When(isEnvProduction, "filesystem"),
      devtool := if isEnvProduction then (if shouldUseSourceMap then Is("source-map") else False)
                 else When(isEnvDevelopment, "cheap-module-source-map"))
  }

  /** `.filter(Boolean)` on the five plugin slots keeps the four constant
      plugins, in order, and the last slot exactly when it holds a plugin. */
  lemma TruthyOfPlugins(a: Plugin, b: Plugin, c: Plugin, d: Plugin, last: OrFalse<Plugin>)
    ensures Truthy([Is(a), Is(b), Is(c), Is(d), last]) == [a, b, c, d] + (if last.Is? then [last.value] else [])
  {
    var tail := if last.Is? then [last.value] else [];
    assert [last][1..] == [];
    assert Truthy([last]) == tail;
    assert [Is(d), last][1..] == [last];
    assert Truthy([Is(d), last]) == [d] + tail;
    assert [Is(c), Is(d), last][1..] == [Is(d), last];
    assert Truthy([Is(c), Is(d), last]) == [c, d] + tail;
    assert [Is(b), Is(c), Is(d), last][1..] == [Is(c), Is(d), last];
    assert Truthy([Is(b), Is(c), Is(d), last]) == [b, c, d] + tail;
    assert [Is(a), Is(b), Is(c), Is(d), last][1..] == [Is(b), Is(c), Is(d), last];
  }

  /** Production is the only environment that minimises, hashes chunk names,
      and analyses the bundle. */
  lemma ProductionOnlyFeatures(webpackEnv: string, shouldUseSourceMap: bool, process: map<string, string>)
    ensures var c := Configure(webpackEnv, shouldUseSourceMap, process);
      && (c.minimize <==> webpackEnv == Production)
      && (BundleAnalyzerPlugin in c.plugins <==> webpackEnv == Production)
      && (c.cacheType == Is("filesystem") <==> webpackEnv == Production)
      && (c.chunkFilename.Is? && Contains(c.chunkFilename.value, ContentHash) <==> webpackEnv == Production)
  {
    var c := Configure(webpackEnv, shouldUseSourceMap, process);
    if webpackEnv == Production {
      ContentHashInHashedName();
      assert c.plugins[4] == BundleAnalyzerPlugin;
    } else if webpackEnv == Development {
      NoContentHashInPlainName();
    }
  }

  /** The production chunk name carries the eight-character content hash. */
  lemma ContentHashInHashedName()
    ensures Contains(HashedChunkFilename, ContentHash)
  {
    var before, after := "static/js/[name].", ".chunk.js";
    assert HashedChunkFilename == before + ContentHash + after;
    assert Contains(ContentHash, ContentHash);
    ContainsExtended(ContentHash, ContentHash, before, after);
  }

  /** The development chunk name carries no content hash: it has no `:` at all. */
  lemma NoContentHashInPlainName()
    ensures !Contains(PlainChunkFilename, ContentHash)
  {
    assert ContentHash[12] == ':';
    assert ':' !in PlainChunkFilename;
    if Contains(PlainChunkFilename, ContentHash) {
      ContainsHasEveryChar(PlainChunkFilename, ContentHash, 12);
    }
  }

  /** Development is the only environment that transpiles without type
      checking, caches in memory and uses the cheap source map. */
  lemma DevelopmentOnlyFeatures(webpackEnv: string, shouldUseSourceMap: bool, process: map<string, string>)
    ensures var c := Configure(webpackEnv, shouldUseSourceMap, process);
      && (c.transpileOnly <==> webpackEnv == Development)
      && (c.cacheType == Is("memory") <==> webpackEnv == Development)
      && (c.devtool == Is("cheap-module-source-map") <==> webpackEnv == Development)
      && (c.chunkFilename == Is(PlainChunkFilename) <==> webpackEnv == Development)
  {
  }

  /** Full source maps are produced exactly in production with the flag on; the
      flag changes nothing in any other environment. */
  lemma SourceMapFlag(webpackEnv: string, process: map<string, string>)
    ensures Configure(webpackEnv, true, process).devtool == Is("source-map") <==> webpackEnv == Production
    ensures Configure(webpackEnv, false, process).devtool != Is("source-map")
    ensures webpackEnv == Production ==> Configure(webpackEnv, false, process).devtool == False
    ensures webpackEnv != Production ==> Configure(webpackEnv, true, process) == Configure(webpackEnv, false, process)
  {
  }

  /** Setting `GENERATE_SOURCEMAP=false` turns source maps off in production
      whatever else the process environment holds. */
  lemma SourceMapOptOut(process: map<string, string>)
    requires "GENERATE_SOURCEMAP" in process && process["GENERATE_SOURCEMAP"] == "false"
    ensures Configure(Production, ShouldUseSourceMap(process), process).devtool == False
  {
  }

  /** The constants the bundle is compiled with are the client environment of
      the call: `NODE_ENV` is the environment name, and every other key is an
      exposed process variable with its process value. */
  lemma DefinedConstants(webpackEnv: string, shouldUseSourceMap: bool, process: map<string, string>)
    ensures var c := Configure(webpackEnv, shouldUseSourceMap, process);
      forall p | p in c.plugins && p.DefinePlugin? ::
        && p.processEnv[NodeEnvKey] == webpackEnv
        && forall k | k in p.processEnv && k != NodeEnvKey :: IsExposed(k) && k in process && p.processEnv[k] == process[k]
  {
  }
}
