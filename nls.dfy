/**
 * Language configuration for the server: the per-(locale, user data
 * directory) configuration cache, the translations an internal
 * configuration points at, and the locale read from the user's settings
 * files.
 *
 * The file system and JSON parsing are parameters: whether the metadata
 * file exists, what the language-pack library computes, what a file
 * holds and what JSON parsing yields.
 */
module Nls {
  import opened Wrappers
  import opened Strings
  import opened CommentStripper

  /** The members of an NLS configuration the server reads and writes. An empty `languagePackId` stands for an absent (falsy) one. */
  datatype NlsConfiguration = NlsConfiguration(
    locale: string,
    availableLanguages: map<string, string>,
    languagePackId: string,
    translationsConfigFile: string,
    languagePackSupport: bool)

  /** A configuration is internal when it names a language pack (a truthy `_languagePackId`). */
  predicate IsInternalConfiguration(config: NlsConfiguration) {
    config.languagePackId != ""
  }

  /** English, with no other language available. */
  function DefaultConfiguration(): (c: NlsConfiguration)
    ensures c.locale == "en" && c.availableLanguages == map[]
    ensures !IsInternalConfiguration(c)
  {
    NlsConfiguration("en", map[], "", "", false)
  }

  /**
   * What the configuration is computed from: the product's commit (absent
   * or empty means falsy), whether `nls.metadata.json` exists, and the
   * language-pack library, a function of commit, user data path and locale.
   */
  datatype NlsSources = NlsSources(
    commit: Option<string>,
    metadataExists: bool,
    languagePack: (string, string, string) -> NlsConfiguration)

  /** A configuration the language pack library is consulted for: a truthy commit and an existing metadata file. */
  predicate UsesLanguagePack(sources: NlsSources) {
    sources.commit.Some? && sources.commit.value != "" && sources.metadataExists
  }

  /**
   * The configuration for `locale`: the language pack library's when a
   * commit and metadata are there, the default otherwise; an internal one
   * is marked as supporting language packs.
   */
  function ComputeConfiguration(sources: NlsSources, locale: string, userDataPath: string): (c: NlsConfiguration)
    ensures !UsesLanguagePack(sources) ==> c == DefaultConfiguration()
    ensures UsesLanguagePack(sources) ==>
      c == (var lp := sources.languagePack(sources.commit.value, userDataPath, locale);
            if IsInternalConfiguration(lp) then lp.(languagePackSupport := true) else lp)
    ensures IsInternalConfiguration(c) ==> c.languagePackSupport
  {
    var config := if UsesLanguagePack(sources)
      then sources.languagePack(sources.commit.value, userDataPath, locale)
      else DefaultConfiguration();
    if IsInternalConfiguration(config) then config.(languagePackSupport := true) else config
  }

  /**
   * A result that is not kept: a locale other than English with no
   * languages available, which a language pack installed later may change.
   */
  predicate Evictable(config: NlsConfiguration) {
    config.locale != "en" && config.locale != "en-us" && |config.availableLanguages| == 0
  }

  /** The default configuration is always kept. */
  lemma DefaultKept()
    ensures !Evictable(DefaultConfiguration())
  {
  }

  /** The cache key `${locale}: ${userDataPath}`. */
  function CacheKey(locale: string, userDataPath: string): string {
    locale + ": " + userDataPath
  }

  /** In a key whose locale holds no colon, the first colon is the one right after the locale. */
  lemma CacheKeyFirstColon(l: string, p: string)
    requires forall i :: 0 <= i < |l| ==> l[i] != ':'
    ensures |l| < |CacheKey(l, p)| && CacheKey(l, p)[|l|] == ':'
    ensures forall j :: 0 <= j < |l| ==> CacheKey(l, p)[j] != ':'
  {
    var k := CacheKey(l, p);
    forall j | 0 <= j < |l| ensures k[j] != ':' {
      assert k[j] == l[j];
    }
  }

  /** Two keys agree only for the same locale and path, as long as locales hold no colon. */
  lemma CacheKeyInjective(l1: string, p1: string, l2: string, p2: string)
    requires forall i :: 0 <= i < |l1| ==> l1[i] != ':'
    requires forall i :: 0 <= i < |l2| ==> l2[i] != ':'
    requires CacheKey(l1, p1) == CacheKey(l2, p2)
    ensures l1 == l2 && p1 == p2
  {
    var k := CacheKey(l1, p1);
    CacheKeyFirstColon(l1, p1);
    CacheKeyFirstColon(l2, p2);
    assert |l1| == |l2|;
    assert l1 == k[..|l1|] == l2;
    assert p1 == k[|l1| + 2..] == p2;
  }

  /** Without that condition two requests can share an entry: locale "a: b" with path "c", and locale "a" with path "b: c". */
  lemma CacheKeyCollision()
    ensures CacheKey("a: b", "c") == CacheKey("a", "b: c")
  {
    assert CacheKey("a: b", "c") == "a: b: c";
    assert CacheKey("a", "b: c") == "a: b: c";
  }

  /** The module-level `configurations` map, one configuration per key. */
  class NlsConfigurationCache {
    var configurations: map<string, NlsConfiguration>

    /** Nothing evictable stays in the cache. */
    ghost predicate Valid()
      reads this
    {
      forall id :: id in configurations ==> !Evictable(configurations[id])
    }

    constructor()
      ensures Valid() && configurations == map[]
    {
      configurations := map[];
    }

    /**
     * `getNlsConfiguration`: a cached configuration is returned as it is;
     * otherwise it is computed and kept unless evictable.
     */
    method GetNlsConfiguration(locale: string, userDataPath: string, sources: NlsSources) returns (config: NlsConfiguration)
      requires Valid()
      modifies this
      ensures Valid()
      ensures var id := CacheKey(locale, userDataPath);
        if id in old(configurations) then
          config == old(configurations)[id] && configurations == old(configurations)
        else
          config == ComputeConfiguration(sources, locale, userDataPath) &&
          configurations == (if Evictable(config) then old(configurations) else old(configurations)[id := config])
    {
      var id := CacheKey(locale, userDataPath);
      if id in configurations {
        config := configurations[id];
      } else {
        config := ComputeConfiguration(sources, locale, userDataPath);
        if !Evictable(config) {
          configurations := configurations[id := config];
        }
      }
    }

    /** `getTranslations`: the translations of the (possibly cached) configuration. */
    method GetTranslations(locale: string, userDataPath: string, sources: NlsSources,
                           readTranslations: string -> Option<map<string, string>>)
      returns (translations: map<string, string>, config: NlsConfiguration)
      requires Valid()
      modifies this
      ensures Valid()
      ensures var id := CacheKey(locale, userDataPath);
        if id in old(configurations) then
          config == old(configurations)[id] && configurations == old(configurations)
        else
          config == ComputeConfiguration(sources, locale, userDataPath) &&
          configurations == (if Evictable(config) then old(configurations) else old(configurations)[id := config])
      ensures translations == Translations(config, readTranslations)
    {
      config := GetNlsConfiguration(locale, userDataPath, sources);
      translations := Translations(config, readTranslations);
    }
  }

  /**
   * The translations of a configuration: what its translations file holds
   * when it is internal and the file can be read and parsed
   * (`readTranslations` gives None otherwise), and none in every other case.
   */
  function Translations(config: NlsConfiguration, readTranslations: string -> Option<map<string, string>>): (t: map<string, string>)
    ensures !IsInternalConfiguration(config) ==> t == map[]
    ensures readTranslations(config.translationsConfigFile).None? ==> t == map[]
    ensures IsInternalConfiguration(config) && readTranslations(config.translationsConfigFile).Some? ==>
      t == readTranslations(config.translationsConfigFile).value
  {
    if IsInternalConfiguration(config) then readTranslations(config.translationsConfigFile).GetOr(map[]) else map[]
  }

  /** Without a commit or metadata there are never translations, whatever any file holds. */
  lemma NoLanguagePackNoTranslations(sources: NlsSources, locale: string, userDataPath: string,
                                     readTranslations: string -> Option<map<string, string>>)
    requires !UsesLanguagePack(sources)
    ensures Translations(ComputeConfiguration(sources, locale, userDataPath), readTranslations) == map[]
  {
  }

  // ---------------------------------------------------------------------
  // The locale from the user's settings

  /** The settings files consulted, in order. */
  const LocaleFiles: seq<string> := ["locale.json", "argv.json"]

  /** The locale when no settings file gives one. */
  const DefaultLocale := "en"

  /**
   * The locale the files give, from `files[i..]` on: the first file that
   * can be read and parsed decides, with the `locale` member it has
   * (None when it has none); when none can, the default.
   * `readUserFile` gives a file's contents (None when it cannot be read);
   * `parseLocale` parses the comment-stripped text and gives its `locale`
   * member (None when parsing fails).
   */
  function LocaleFrom(files: seq<string>, i: nat, readUserFile: string -> Option<string>,
                      parseLocale: string -> Option<Option<string>>): Option<string>
    requires i <= |files|
    decreases |files| - i
  {
    if i == |files| then Some(DefaultLocale)
    else match ReadLocale(files[i], readUserFile, parseLocale)
      case Some(locale) => locale
      case None => LocaleFrom(files, i + 1, readUserFile, parseLocale)
  }

  /** One file's outcome: None when reading or parsing it fails. The text is parsed after the as-written `StripComments`. */
  function ReadLocale(file: string, readUserFile: string -> Option<string>,
                      parseLocale: string -> Option<Option<string>>): Option<Option<string>>
  {
    match readUserFile(file)
    case None => None
    case Some(content) => parseLocale(StripComments(content))
  }

  /** `getLocaleFromConfig`: try each settings file in turn, return the first parsed `locale`, else English. */
  method GetLocaleFromConfig(readUserFile: string -> Option<string>, parseLocale: string -> Option<Option<string>>)
    returns (locale: Option<string>)
    ensures locale == LocaleFrom(LocaleFiles, 0, readUserFile, parseLocale)
  {
    var files := LocaleFiles;
    var i := 0;
    while i < |files|
      invariant 0 <= i <= |files|
      invariant LocaleFrom(files, 0, readUserFile, parseLocale) == LocaleFrom(files, i, readUserFile, parseLocale)
    {
      var outcome := ReadLocale(files[i], readUserFile, parseLocale);
      if outcome.Some? {
        return outcome.value;
      }
      i := i + 1;
    }
    return Some(DefaultLocale);
  }

  /** A readable, parseable `locale.json` decides, even when it has no `locale` (then the result is undefined: None). */
  lemma LocaleJsonWins(readUserFile: string -> Option<string>, parseLocale: string -> Option<Option<string>>)
    requires ReadLocale("locale.json", readUserFile, parseLocale).Some?
    ensures LocaleFrom(LocaleFiles, 0, readUserFile, parseLocale) == ReadLocale("locale.json", readUserFile, parseLocale).value
  {
    assert LocaleFiles[0] == "locale.json";
  }

  /** When `locale.json` fails, `argv.json` decides if it can. */
  lemma ArgvJsonNext(readUserFile: string -> Option<string>, parseLocale: string -> Option<Option<string>>)
    requires ReadLocale("locale.json", readUserFile, parseLocale).None?
    requires ReadLocale("argv.json", readUserFile, parseLocale).Some?
    ensures LocaleFrom(LocaleFiles, 0, readUserFile, parseLocale) == ReadLocale("argv.json", readUserFile, parseLocale).value
  {
    assert LocaleFiles[0] == "locale.json" && LocaleFiles[1] == "argv.json";
    assert LocaleFrom(LocaleFiles, 0, readUserFile, parseLocale) == LocaleFrom(LocaleFiles, 1, readUserFile, parseLocale);
  }

  /** When neither file can be read and parsed the locale is English. */
  lemma NeitherFileGivesEnglish(readUserFile: string -> Option<string>, parseLocale: string -> Option<Option<string>>)
    requires ReadLocale("locale.json", readUserFile, parseLocale).None?
    requires ReadLocale("argv.json", readUserFile, parseLocale).None?
    ensures LocaleFrom(LocaleFiles, 0, readUserFile, parseLocale) == Some("en")
  {
    assert LocaleFiles[0] == "locale.json" && LocaleFiles[1] == "argv.json";
    assert LocaleFrom(LocaleFiles, 1, readUserFile, parseLocale) == LocaleFrom(LocaleFiles, 2, readUserFile, parseLocale);
  }

  /** A file that does not exist is as good as one that does not parse: both pass to the next file. */
  lemma UnreadableFileIsSkipped(files: seq<string>, i: nat, readUserFile: string -> Option<string>,
                                parseLocale: string -> Option<Option<string>>)
    requires i < |files| && readUserFile(files[i]).None?
    ensures LocaleFrom(files, i, readUserFile, parseLocale) == LocaleFrom(files, i + 1, readUserFile, parseLocale)
  {
  }

  /**
   * A `locale.json` whose first line ends in a double-quoted URL is cut at
   * the URL's `//`; when the text left does not parse, the file is passed
   * over just like a missing one and `argv.json` or English decides.
   */
  lemma LocaleJsonWithUrlFallsThrough(p: string, u: string, readUserFile: string -> Option<string>,
                                      parseLocale: string -> Option<Option<string>>)
    requires forall i :: 0 <= i < |p| ==> p[i] != '/' && p[i] != '\''
    requires IsLineText(u)
    requires readUserFile("locale.json") == Some(p + "//" + u)
    requires parseLocale(p).None?
    ensures ReadLocale("locale.json", readUserFile, parseLocale).None?
    ensures LocaleFrom(LocaleFiles, 0, readUserFile, parseLocale) == LocaleFrom(LocaleFiles, 1, readUserFile, parseLocale)
  {
    StripCommentsCutsDoubleQuoted(p, u);
    assert LocaleFiles[0] == "locale.json";
  }

  // ---------------------------------------------------------------------
  // Scenarios

  /** A second request for the same key is served from the cache, even after a language pack appears. */
  method CachedAcrossSourceChange(before: NlsSources, after: NlsSources)
    requires !UsesLanguagePack(before)
  {
    var cache := new NlsConfigurationCache();
    var first := cache.GetNlsConfiguration("de", "/data", before);
    assert first == DefaultConfiguration();
    var second := cache.GetNlsConfiguration("de", "/data", after);
    assert second == first;
  }

  /** A non-English result with no languages is recomputed on the next request. */
  method EvictedIsRecomputed(sources: NlsSources)
    requires UsesLanguagePack(sources)
    requires sources.languagePack(sources.commit.value, "/data", "de") == NlsConfiguration("de", map[], "", "", false)
  {
    var cache := new NlsConfigurationCache();
    var first := cache.GetNlsConfiguration("de", "/data", sources);
    assert Evictable(first);
    assert cache.configurations == map[];
  }
}
