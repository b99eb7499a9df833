/**
 * The deployment scanner of a web application: it finds every classpath root
 * with a `META-INF/beans.xml` marker, records where each beans.xml lives,
 * builds the annotation database over the archives found, and does all of this
 * at most once.
 */
module Scanner {
  import opened Wrappers

  /** A URL, as its external form: a scheme, a colon, and the rest. */
  type Url = string

  /** The marker resource every bean archive holds, relative to its root. */
  const BeansXmlMarker := "META-INF/beans.xml"

  predicate EndsWith(s: string, suffix: string)
  {
    |suffix| <= |s| && s[|s| - |suffix|..] == suffix
  }

  /** The index of the first `c` in `s`, or -1 if there is none. */
  function IndexOf(s: string, c: char): (i: int)
    ensures -1 <= i < |s|
    ensures i >= 0 ==> s[i] == c && forall k :: 0 <= k < i ==> s[k] != c
    ensures i == -1 ==> forall k :: 0 <= k < |s| ==> s[k] != c
  {
    if s == [] then -1
    else if s[0] == c then 0
    else
      var j := IndexOf(s[1..], c);
      if j < 0 then -1 else j + 1
  }

  /** The index of the last `c` in `s`, or -1 if there is none. */
  function LastIndexOf(s: string, c: char): (i: int)
    ensures -1 <= i < |s|
    ensures i >= 0 ==> s[i] == c && forall k :: i < k < |s| ==> s[k] != c
    ensures i == -1 ==> forall k :: 0 <= k < |s| ==> s[k] != c
  {
    if s == [] then -1
    else if s[|s| - 1] == c then |s| - 1
    else LastIndexOf(s[..|s| - 1], c)
  }

  /** The file part of a URL: everything after the scheme's colon. */
  function UrlFile(u: Url): string
  {
    var i := IndexOf(u, ':');
    if i < 0 then u else u[i + 1..]
  }

  /** The file part of `prefix + rest` is `rest` when `prefix` is a scheme and its colon, whatever `rest` holds. */
  lemma UrlFileAfterScheme(prefix: string, rest: string)
    requires |prefix| > 0 && prefix[|prefix| - 1] == ':'
    requires forall k :: 0 <= k < |prefix| - 1 ==> prefix[k] != ':'
    ensures UrlFile(prefix + rest) == rest
  {
    var u := prefix + rest;
    assert forall k :: 0 <= k < |prefix| ==> u[k] == prefix[k];
    assert IndexOf(u, ':') == |prefix| - 1;
    assert u[|prefix|..] == rest;
  }

  /**
   * The location of the beans.xml of the classpath root `base`: inside a jar
   * (a root whose file part ends in `.jar!/`) a `jar:` URL, otherwise a `file:` URL,
   * each made of the root's file part followed by the marker.
   */
  function BeansXmlLocation(base: Url): (location: Url)
    ensures EndsWith(UrlFile(base), ".jar!/") ==> location == "jar:" + UrlFile(base) + BeansXmlMarker
    ensures !EndsWith(UrlFile(base), ".jar!/") ==> location == "file:" + UrlFile(base) + BeansXmlMarker
  {
    var fileDir := UrlFile(base);
    if EndsWith(fileDir, ".jar!/") then
      assert fileDir[|fileDir| - 1] == '/';
      "jar:" + (fileDir[..LastIndexOf(fileDir, '/')] + "/" + BeansXmlMarker)
    else
      "file:" + fileDir + BeansXmlMarker
  }

  /** The file part of `scheme:rest`, for the two schemes the locations use, is `rest`. */
  lemma SchemeFile(scheme: string, rest: string)
    requires scheme == "jar:" || scheme == "file:"
    ensures UrlFile(scheme + rest) == rest
  {
    UrlFileAfterScheme(scheme, rest);
  }

  /** In both branches, the file part of the location is the root's file part followed by the marker. */
  lemma BeansXmlLocationFile(base: Url)
    ensures UrlFile(BeansXmlLocation(base)) == UrlFile(base) + BeansXmlMarker
  {
    var rest := UrlFile(base) + BeansXmlMarker;
    var scheme := if EndsWith(UrlFile(base), ".jar!/") then "jar:" else "file:";
    assert BeansXmlLocation(base) == scheme + rest;
    SchemeFile(scheme, rest);
  }

  /** An input stream opened on a URL; only its origin matters here. */
  datatype Stream = Stream(url: Url)

  /**
   * What the servlet context answers: the URL of `/WEB-INF/beans.xml` if the web
   * application has one, and the URL of its `WEB-INF/classes` directory if found.
   */
  datatype ServletContext = ServletContext(beansXml: Option<Url>, webInfClasses: Option<Url>)

  /** The annotation database, built over a set of archives. */
  datatype AnnotationDb = AnnotationDb(archives: set<Url>)

  /** The `WebBeansConfigurationException` that wraps a failure while scanning. */
  datatype Failure = ConfigurationError(cause: string)

  /** The classpath roots found with the marker; a `null` answer means none. */
  function Roots(resourceBases: Option<seq<Url>>): seq<Url>
  {
    if resourceBases.Some? then resourceBases.value else []
  }

  /**
   * The beans.xml locations recorded on top of `recorded` by visiting `bases` in
   * order: each root's location is stored under its file part, replacing an
   * earlier entry with the same key.
   */
  function MarkerLocations(recorded: map<string, Stream>, bases: seq<Url>): map<string, Stream>
    decreases |bases|
  {
    if bases == [] then recorded
    else
      var location := BeansXmlLocation(bases[|bases| - 1]);
      MarkerLocations(recorded, bases[..|bases| - 1])[UrlFile(location) := Stream(location)]
  }

  /**
   * After the roots are visited, a key is recorded exactly when it was recorded
   * before or is some root's file part followed by the marker.
   */
  lemma {:induction false} MarkerLocationKeys(recorded: map<string, Stream>, bases: seq<Url>, key: string)
    ensures key in MarkerLocations(recorded, bases) <==>
      key in recorded || exists b :: b in bases && key == UrlFile(b) + BeansXmlMarker
    decreases |bases|
  {
    if bases != [] {
      var front, last := bases[..|bases| - 1], bases[|bases| - 1];
      assert bases == front + [last];
      MarkerLocationKeys(recorded, front, key);
      BeansXmlLocationFile(last);
      if key in MarkerLocations(recorded, bases) && key !in recorded && key != UrlFile(last) + BeansXmlMarker {
        var b :| b in front && key == UrlFile(b) + BeansXmlMarker;
        assert b in bases;
      }
    }
  }

  /** A root's entry holds the stream of that root's beans.xml location, unless a later root has the same file part. */
  lemma {:induction false} MarkerLocationOfLastRoot(recorded: map<string, Stream>, bases: seq<Url>, i: nat)
    requires i < |bases|
    requires forall j :: i < j < |bases| ==> UrlFile(bases[j]) != UrlFile(bases[i])
    ensures UrlFile(bases[i]) + BeansXmlMarker in MarkerLocations(recorded, bases)
    ensures MarkerLocations(recorded, bases)[UrlFile(bases[i]) + BeansXmlMarker] == Stream(BeansXmlLocation(bases[i]))
    decreases |bases|
  {
    var front, last := bases[..|bases| - 1], bases[|bases| - 1];
    BeansXmlLocationFile(last);
    BeansXmlLocationFile(bases[i]);
    if i < |bases| - 1 {
      assert UrlFile(last) != UrlFile(bases[i]);
      FilePartKeysDiffer(UrlFile(last), UrlFile(bases[i]));
      assert front[i] == bases[i];
      MarkerLocationOfLastRoot(recorded, front, i);
    }
  }

  /** Distinct file parts give distinct keys. */
  lemma FilePartKeysDiffer(a: string, b: string)
    requires a != b
    ensures a + BeansXmlMarker != b + BeansXmlMarker
  {
    if |a| == |b| {
      var k :| 0 <= k < |a| && a[k] != b[k];
      assert (a + BeansXmlMarker)[k] == a[k];
      assert (b + BeansXmlMarker)[k] == b[k];
    } else {
      assert |a + BeansXmlMarker| != |b + BeansXmlMarker|;
    }
  }

  /** The beans.xml location of the web application itself, recorded on top of `recorded` under its file part when it exists. */
  function WarLocations(recorded: map<string, Stream>, sc: ServletContext): map<string, Stream>
  {
    if sc.beansXml.Some? then recorded[UrlFile(sc.beansXml.value) := Stream(sc.beansXml.value)] else recorded
  }

  /** The classes directory of the web application, which counts as an archive only when it has a beans.xml. */
  function WarArchive(sc: ServletContext): Option<Url>
  {
    if sc.beansXml.Some? then sc.webInfClasses else None
  }

  /** The archives scanned: every marked root, and the classes directory of the web application when there is one. */
  function Archives(bases: seq<Url>, sc: ServletContext): set<Url>
  {
    Elements(bases) + (if WarArchive(sc).Some? then {WarArchive(sc).value} else {})
  }

  /** The URLs of a sequence, as a set. */
  function Elements(urls: seq<Url>): set<Url>
  {
    set b | b in urls
  }

  /** The roots up to and including root `i` are those before it and root `i`. */
  lemma ElementsStep(urls: seq<Url>, i: nat)
    requires i < |urls|
    ensures Elements(urls[..i + 1]) == Elements(urls[..i]) + {urls[i]}
  {
    assert urls[..i + 1] == urls[..i] + [urls[i]];
  }

  /** Visiting root `i` records its location on top of what the roots before it recorded. */
  lemma MarkerStep(recorded: map<string, Stream>, urls: seq<Url>, i: nat)
    requires i < |urls|
    ensures MarkerLocations(recorded, urls[..i + 1])
      == MarkerLocations(recorded, urls[..i])[UrlFile(BeansXmlLocation(urls[i])) := Stream(BeansXmlLocation(urls[i]))]
  {
    assert urls[..i + 1][..i] == urls[..i];
  }

  class WebBeansScanner {
    /** The recorded beans.xml locations, keyed by file part. */
    var xmlLocations: map<string, Stream>
    var annotationDb: Option<AnnotationDb>
    /** Whether a scan has completed. */
    var configure: bool
    var servletContext: Option<ServletContext>

    constructor ()
      ensures xmlLocations == map[] && annotationDb.None? && !configure && servletContext.None?
    {
      xmlLocations := map[];
      annotationDb := None;
      configure := false;
      servletContext := None;
    }

    /**
     * Configures the container from the deployment, once: the first call records
     * the servlet context and builds the annotation database; after one has
     * succeeded, later calls change nothing. `resourceBases` is what the classpath
     * search for the marker returns.
     */
    method Scan(servletContext: Option<ServletContext>, resourceBases: Option<seq<Url>>) returns (r: Result<(), Failure>)
      modifies this
      ensures old(configure) ==>
        && r.Ok? && configure && xmlLocations == old(xmlLocations) && annotationDb == old(annotationDb)
        && this.servletContext == old(this.servletContext)
      ensures !old(configure) ==>
        && this.servletContext == servletContext
        && (r.Ok? <==> servletContext.Some?)
        && configure == r.Ok?
      ensures !old(configure) && servletContext.None? ==>
        && xmlLocations == MarkerLocations(old(xmlLocations), Roots(resourceBases))
        && annotationDb == old(annotationDb)
      ensures !old(configure) && servletContext.Some? ==>
        && xmlLocations == WarLocations(MarkerLocations(old(xmlLocations), Roots(resourceBases)), servletContext.value)
        && annotationDb == (if old(annotationDb).None?
                            then Some(AnnotationDb(Archives(Roots(resourceBases), servletContext.value)))
                            else old(annotationDb))
    {
      r := Ok(());
      if !configure {
        this.servletContext := servletContext;
        r := ConfigureAnnotationDB(resourceBases);
        if r.Ok? {
          configure := true;
        }
      }
    }

    /** Builds the annotation database over the archives found, unless there already is one. */
    method ConfigureAnnotationDB(resourceBases: Option<seq<Url>>) returns (r: Result<(), Failure>)
      modifies this
      ensures r.Ok? <==> servletContext.Some?
      ensures servletContext == old(servletContext) && configure == old(configure)
      ensures servletContext.None? ==>
        xmlLocations == MarkerLocations(old(xmlLocations), Roots(resourceBases)) && annotationDb == old(annotationDb)
      ensures servletContext.Some? ==>
        && xmlLocations == WarLocations(MarkerLocations(old(xmlLocations), Roots(resourceBases)), servletContext.value)
        && annotationDb == (if old(annotationDb).None?
                            then Some(AnnotationDb(Archives(Roots(resourceBases), servletContext.value)))
                            else old(annotationDb))
    {
      var arcs := GetArchives(resourceBases);
      if arcs.Err? {
        return Err(arcs.error);
      }
      if annotationDb.None? {
        annotationDb := Some(AnnotationDb(arcs.value));
      }
      r := Ok(());
    }

    /** Every marked root, plus the classes directory of the web application when it has a beans.xml. */
    method GetArchives(resourceBases: Option<seq<Url>>) returns (r: Result<set<Url>, Failure>)
      modifies this
      ensures r.Ok? <==> servletContext.Some?
      ensures r.Ok? ==> r.value == Archives(Roots(resourceBases), servletContext.value)
      ensures servletContext == old(servletContext) && configure == old(configure) && annotationDb == old(annotationDb)
      ensures servletContext.None? ==> xmlLocations == MarkerLocations(old(xmlLocations), Roots(resourceBases))
      ensures servletContext.Some? ==>
        xmlLocations == WarLocations(MarkerLocations(old(xmlLocations), Roots(resourceBases)), servletContext.value)
    {
      var lists := CreateUrlFromMarkerFile(resourceBases);
      var warUrl := CreateUrlFromWarFile();
      if warUrl.Err? {
        return Err(warUrl.error);
      }
      if warUrl.value.Some? {
        lists := lists + {warUrl.value.value};
      }
      r := Ok(lists);
    }

    /** Records the beans.xml location of every marked root and returns the roots; a `null` search result has none. */
    method CreateUrlFromMarkerFile(resourceBases: Option<seq<Url>>) returns (listUrl: set<Url>)
      modifies this
      ensures listUrl == Elements(Roots(resourceBases))
      ensures xmlLocations == MarkerLocations(old(xmlLocations), Roots(resourceBases))
      ensures servletContext == old(servletContext) && configure == old(configure) && annotationDb == old(annotationDb)
    {
      listUrl := {};
      if resourceBases.Some? {
        listUrl := RecordMarkerLocations(resourceBases.value);
      }
    }

    /** The loop over the marked roots: each root is collected and its beans.xml location recorded. */
    method RecordMarkerLocations(urls: seq<Url>) returns (listUrl: set<Url>)
      modifies this
      ensures listUrl == Elements(urls)
      ensures xmlLocations == MarkerLocations(old(xmlLocations), urls)
      ensures servletContext == old(servletContext) && configure == old(configure) && annotationDb == old(annotationDb)
    {
      listUrl := {};
      for i := 0 to |urls|
        invariant listUrl == Elements(urls[..i])
        invariant xmlLocations == MarkerLocations(old(xmlLocations), urls[..i])
        invariant servletContext == old(servletContext) && configure == old(configure) && annotationDb == old(annotationDb)
      {
        var url := urls[i];
        var addPath := BeansXmlLocation(url);
        ElementsStep(urls, i);
        MarkerStep(old(xmlLocations), urls, i);
        listUrl := listUrl + {url};
        xmlLocations := xmlLocations[UrlFile(addPath) := Stream(addPath)];
      }
      assert urls[..|urls|] == urls;
    }

    /**
     * Records the web application's own beans.xml, if it has one, and returns its
     * classes directory in that case; without a servlet context this fails.
     */
    method CreateUrlFromWarFile() returns (r: Result<Option<Url>, Failure>)
      modifies this
      ensures r.Ok? <==> servletContext.Some?
      ensures r.Ok? ==> r.value == WarArchive(servletContext.value)
      ensures servletContext == old(servletContext) && configure == old(configure) && annotationDb == old(annotationDb)
      ensures servletContext.None? ==> xmlLocations == old(xmlLocations)
      ensures servletContext.Some? ==> xmlLocations == WarLocations(old(xmlLocations), servletContext.value)
    {
      if servletContext.None? {
        return Err(ConfigurationError("NullPointerException"));
      }
      var url := servletContext.value.beansXml;
      if url.Some? {
        xmlLocations := xmlLocations[UrlFile(url.value) := Stream(url.value)];
        return Ok(servletContext.value.webInfClasses);
      }
      r := Ok(None);
    }
  }
}
