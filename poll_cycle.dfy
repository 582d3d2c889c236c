/**
 One poll cycle of the downloader (index.js, handleResponse and the counting
 side of downloadFile): walk a page of movies in order, start one download for
 every movie whose id the cache has not seen and whose MPA rating passes the
 filter, mark every unseen id as seen, and keep the latest upload time as the
 "last_uploaded" watermark.

 The cache is saved at the end of the cycle by a save that keeps only the
 keys the cycle read or wrote: "last_uploaded" and the ids of the page.

 The model is in two layers. `Run` folds `Step` over the page and is the
 specification the imperative `Downloader.HandleResponse` is proved against.
 `Fresh`, `DownloadsOf` and `MaxUpload` describe the outcome independently,
 as filters and a maximum over the page, and the lemmas connect the two.
 */
module PollCycle {

  /** A cache key: a movie id, or the reserved "last_uploaded" key. */
  datatype Key = Id(id: int) | LastUploaded

  /** A cached value: the "seen" flag stored under movie ids, or the watermark timestamp. */
  datatype Value = Flag(b: bool) | Stamp(t: int)

  /** A movie of the parsed catalog page, with the URL of its first torrent. */
  datatype Movie = Movie(id: int, title: string, mpaRating: string, dateUploaded: int, torrentUrl: string)

  /** A started transfer: the torrent URL and the local file it is written to. */
  datatype Download = Download(url: string, path: string)

  /** The configuration the cycle reads: the default watermark, the accepted MPA ratings, the target directory. */
  datatype Config = Config(since: int, mpaRatings: seq<string>, destination: string)

  /** JavaScript truthiness of a cached value. */
  predicate Truthy(v: Value)
  {
    match v
    case Flag(b) => b
    case Stamp(t) => t != 0
  }

  /** The cache holds a truthy entry for the movie id, so the movie is skipped. */
  predicate Seen(cache: map<Key, Value>, id: int)
  {
    Id(id) in cache && Truthy(cache[Id(id)])
  }

  /** The watermark a cycle starts from: the stored "last_uploaded" when it is set, else the configured default. */
  function Seed(cache: map<Key, Value>, since: int): int
  {
    if LastUploaded in cache && cache[LastUploaded].Stamp? && cache[LastUploaded].t != 0
    then cache[LastUploaded].t
    else since
  }

  /** The local file a torrent is saved to. */
  function TargetPath(destination: string, title: string): string
  {
    destination + "/" + title + ".torrent"
  }

  /** The download started for a movie. */
  function DownloadFor(cfg: Config, m: Movie): Download
  {
    Download(m.torrentUrl, TargetPath(cfg.destination, m.title))
  }

  /** The MPA filter: no ratings configured, or the movie's rating is one of them. */
  predicate Accepts(cfg: Config, m: Movie)
  {
    |cfg.mpaRatings| == 0 || m.mpaRating in cfg.mpaRatings
  }

  /** The state a cycle threads through the page: cache, download log, this cycle's count, local watermark. */
  datatype Pass = Pass(cache: map<Key, Value>, log: seq<Download>, downloaded: nat, last: int)

  /** Processing one movie of the page. */
  function Step(p: Pass, m: Movie, cfg: Config): Pass
  {
    if Seen(p.cache, m.id) then p
    else
      var q := if Accepts(cfg, m) then p.(log := p.log + [DownloadFor(cfg, m)], downloaded := p.downloaded + 1) else p;
      q.(cache := q.cache[Id(m.id) := Flag(true)],
         last := if m.dateUploaded > q.last then m.dateUploaded else q.last)
  }

  /** Processing the page in order. */
  function Run(p: Pass, movies: seq<Movie>, cfg: Config): Pass
    decreases |movies|
  {
    if movies == [] then p
    else Step(Run(p, movies[..|movies| - 1], cfg), movies[|movies| - 1], cfg)
  }

  /** The state a cycle starts in: per-cycle count reset, watermark seeded. */
  function Start(cache: map<Key, Value>, log: seq<Download>, since: int): Pass
  {
    Pass(cache, log, 0, Seed(cache, since))
  }

  /** The cache a cycle persists: the pass's cache with the watermark stored under "last_uploaded". */
  function Finish(p: Pass): map<Key, Value>
  {
    p.cache[LastUploaded := Stamp(p.last)]
  }

  /** The ids occurring in a page. */
  function Ids(movies: seq<Movie>): set<int>
    decreases |movies|
  {
    if movies == [] then {} else Ids(movies[..|movies| - 1]) + {movies[|movies| - 1].id}
  }

  /** The ids of a page are exactly the ids of its movies. */
  lemma {:induction false} IdsOfPage(movies: seq<Movie>)
    ensures forall m :: m in movies ==> m.id in Ids(movies)
    ensures forall id :: id in Ids(movies) ==> exists m :: m in movies && m.id == id
    decreases |movies|
  {
    if movies != [] {
      var init := movies[..|movies| - 1];
      IdsOfPage(init);
      assert forall m :: m in movies ==> m in init || m == movies[|movies| - 1];
      assert forall m :: m in init ==> m in movies;
    }
  }

  /** The keys a cycle reads or writes: "last_uploaded" first, then the id of every movie of the page. */
  function Visited(movies: seq<Movie>): set<Key>
    decreases |movies|
  {
    if movies == [] then {LastUploaded} else Visited(movies[..|movies| - 1]) + {Id(movies[|movies| - 1].id)}
  }

  /** The visited keys are "last_uploaded" and the page's ids, and nothing else. */
  lemma {:induction false} VisitedKeys(movies: seq<Movie>)
    ensures forall k :: k in Visited(movies) <==> k == LastUploaded || (k.Id? && k.id in Ids(movies))
    decreases |movies|
  {
    if movies != [] {
      VisitedKeys(movies[..|movies| - 1]);
    }
  }

  /**
   The cache library's save without `noPrune`: once any key was read or
   written since the last save, only those keys are kept.
   */
  function Prune(c: map<Key, Value>, visited: set<Key>): map<Key, Value>
  {
    if visited == {} then c else map k | k in c && k in visited :: c[k]
  }

  /** The cache a cycle leaves, in memory and on disk: the watermark stored, then every key the cycle did not touch pruned. */
  function Saved(p: Pass, movies: seq<Movie>): map<Key, Value>
  {
    Prune(Finish(p), Visited(movies))
  }

  /**
   The movies of the page that a cycle treats as new, in page order: their id
   is not seen in the cache the cycle starts from and does not occur earlier
   in the page.
   */
  function Fresh(cache: map<Key, Value>, movies: seq<Movie>): seq<Movie>
    decreases |movies|
  {
    if movies == [] then []
    else
      var init := movies[..|movies| - 1];
      var m := movies[|movies| - 1];
      Fresh(cache, init) + (if !Seen(cache, m.id) && m.id !in Ids(init) then [m] else [])
  }

  /** The downloads started for a list of new movies: those the MPA filter accepts, in order. */
  function DownloadsOf(cfg: Config, movies: seq<Movie>): seq<Download>
    decreases |movies|
  {
    if movies == [] then []
    else
      var m := movies[|movies| - 1];
      DownloadsOf(cfg, movies[..|movies| - 1]) + (if Accepts(cfg, m) then [DownloadFor(cfg, m)] else [])
  }

  /** One download per accepted movie and none for the others. */
  lemma {:induction false} DownloadsOfAccepted(cfg: Config, movies: seq<Movie>)
    ensures |DownloadsOf(cfg, movies)| <= |movies|
    ensures forall d :: d in DownloadsOf(cfg, movies) ==> exists m :: m in movies && Accepts(cfg, m) && d == DownloadFor(cfg, m)
    ensures forall m :: m in movies && Accepts(cfg, m) ==> DownloadFor(cfg, m) in DownloadsOf(cfg, movies)
    decreases |movies|
  {
    if movies != [] {
      var init := movies[..|movies| - 1];
      var m := movies[|movies| - 1];
      DownloadsOfAccepted(cfg, init);
      assert forall x :: x in movies ==> x in init || x == m;
      assert forall x :: x in init ==> x in movies;
    }
  }

  /** The seed raised to the latest upload time of the movies. */
  function MaxUpload(seed: int, movies: seq<Movie>): int
    decreases |movies|
  {
    if movies == [] then seed
    else
      var m := movies[|movies| - 1];
      var w := MaxUpload(seed, movies[..|movies| - 1]);
      if m.dateUploaded > w then m.dateUploaded else w
  }

  /** The raised watermark is the largest of the seed and the upload times. */
  lemma {:induction false} MaxUploadIsMaximum(seed: int, movies: seq<Movie>)
    ensures MaxUpload(seed, movies) >= seed
    ensures forall m :: m in movies ==> MaxUpload(seed, movies) >= m.dateUploaded
    ensures MaxUpload(seed, movies) == seed || exists m :: m in movies && MaxUpload(seed, movies) == m.dateUploaded
    decreases |movies|
  {
    if movies != [] {
      var init := movies[..|movies| - 1];
      MaxUploadIsMaximum(seed, init);
      assert forall x :: x in movies ==> x in init || x == movies[|movies| - 1];
      assert forall x :: x in init ==> x in movies;
    }
  }

  /** Each new movie is from the page and unseen at the start. */
  lemma {:induction false} FreshFromPage(cache: map<Key, Value>, movies: seq<Movie>)
    ensures forall m :: m in Fresh(cache, movies) ==> m in movies && !Seen(cache, m.id)
    decreases |movies|
  {
    if movies != [] {
      var init := movies[..|movies| - 1];
      FreshFromPage(cache, init);
      assert forall m :: m in init ==> m in movies;
    }
  }

  /** The ids of the new movies are the page's ids that the cache has not seen. */
  lemma {:induction false} FreshIds(cache: map<Key, Value>, movies: seq<Movie>)
    ensures forall id :: id in Ids(Fresh(cache, movies)) <==> id in Ids(movies) && !Seen(cache, id)
    decreases |movies|
  {
    if movies != [] {
      var init := movies[..|movies| - 1];
      var m := movies[|movies| - 1];
      FreshIds(cache, init);
      var f := Fresh(cache, init);
      assert Ids(movies) == Ids(init) + {m.id};
      if !Seen(cache, m.id) && m.id !in Ids(init) {
        assert Fresh(cache, movies) == f + [m];
        assert (f + [m])[..|f + [m]| - 1] == f;
        assert Ids(f + [m]) == Ids(f) + {m.id};
      } else {
        assert Fresh(cache, movies) == f + [] == f;
      }
    }
  }

  /** No id occurs twice among the new movies, so no movie is downloaded twice in a cycle. */
  lemma {:induction false} FreshDistinct(cache: map<Key, Value>, movies: seq<Movie>)
    ensures forall i, j :: 0 <= i < j < |Fresh(cache, movies)| ==> Fresh(cache, movies)[i].id != Fresh(cache, movies)[j].id
    decreases |movies|
  {
    if movies != [] {
      var init := movies[..|movies| - 1];
      var m := movies[|movies| - 1];
      FreshDistinct(cache, init);
      FreshFromPage(cache, init);
      IdsOfPage(init);
      var f := Fresh(cache, init);
      if !Seen(cache, m.id) && m.id !in Ids(init) {
        assert forall i :: 0 <= i < |f| ==> f[i] in init;
      } else {
        assert Fresh(cache, movies) == f + [] == f;
      }
    }
  }

  /** After the page, an id is seen exactly when it was seen before or occurs in the page. */
  lemma {:induction false} RunSeen(p: Pass, movies: seq<Movie>, cfg: Config)
    ensures forall id :: Seen(Run(p, movies, cfg).cache, id) <==> Seen(p.cache, id) || id in Ids(movies)
    decreases |movies|
  {
    if movies != [] {
      RunSeen(p, movies[..|movies| - 1], cfg);
    }
  }

  /**
   The cache after the page: every id first seen in this page now maps to
   true, and every other key keeps its presence and value.
   */
  lemma {:induction false} RunCache(p: Pass, movies: seq<Movie>, cfg: Config)
    ensures forall k :: k in Run(p, movies, cfg).cache <==> k in p.cache || (k.Id? && k.id in Ids(movies))
    ensures forall k :: k in Run(p, movies, cfg).cache ==>
      Run(p, movies, cfg).cache[k] == (if k.Id? && k.id in Ids(movies) && !Seen(p.cache, k.id) then Flag(true) else p.cache[k])
    decreases |movies|
  {
    if movies != [] {
      var init := movies[..|movies| - 1];
      RunCache(p, init, cfg);
      RunSeen(p, init, cfg);
    }
  }

  /** The downloads of new movies grow by one movie's download at a time. */
  lemma DownloadsSnoc(cfg: Config, f: seq<Movie>, m: Movie)
    ensures DownloadsOf(cfg, f + [m]) == DownloadsOf(cfg, f) + (if Accepts(cfg, m) then [DownloadFor(cfg, m)] else [])
  {
    assert (f + [m])[..|f + [m]| - 1] == f;
  }

  /** The page's downloads are those of its new movies that pass the filter, in page order. */
  lemma {:induction false} RunLog(p: Pass, movies: seq<Movie>, cfg: Config)
    ensures Run(p, movies, cfg).log == p.log + DownloadsOf(cfg, Fresh(p.cache, movies))
    ensures Run(p, movies, cfg).downloaded == p.downloaded + |DownloadsOf(cfg, Fresh(p.cache, movies))|
    decreases |movies|
  {
    if movies == [] {
      assert p.log + [] == p.log;
    } else {
      var init := movies[..|movies| - 1];
      var m := movies[|movies| - 1];
      RunLog(p, init, cfg);
      RunSeen(p, init, cfg);
      var q := Run(p, init, cfg);
      var f := Fresh(p.cache, init);
      var d := DownloadsOf(cfg, f);
      assert q.log == p.log + d && q.downloaded == p.downloaded + |d|;
      if !Seen(p.cache, m.id) && m.id !in Ids(init) {
        var x: seq<Download> := if Accepts(cfg, m) then [DownloadFor(cfg, m)] else [];
        DownloadsSnoc(cfg, f, m);
        assert Fresh(p.cache, movies) == f + [m];
        assert Run(p, movies, cfg).log == q.log + x;
        assert Run(p, movies, cfg).downloaded == q.downloaded + |x|;
        assert (p.log + d) + x == p.log + (d + x);
      } else {
        assert Run(p, movies, cfg) == q;
        assert Fresh(p.cache, movies) == f + [] == f;
      }
    }
  }

  /** The page's watermark is the starting one raised to the upload times of its new movies. */
  lemma {:induction false} RunLast(p: Pass, movies: seq<Movie>, cfg: Config)
    ensures Run(p, movies, cfg).last == MaxUpload(p.last, Fresh(p.cache, movies))
    decreases |movies|
  {
    if movies != [] {
      var init := movies[..|movies| - 1];
      var m := movies[|movies| - 1];
      RunLast(p, init, cfg);
      RunSeen(p, init, cfg);
      var f := Fresh(p.cache, init);
      if !Seen(p.cache, m.id) && m.id !in Ids(init) {
        assert (f + [m])[..|f + [m]| - 1] == f;
      } else {
        assert Fresh(p.cache, movies) == f + [] == f;
      }
    }
  }

  /** A page whose ids are all seen has no new movies. */
  lemma {:induction false} NothingFresh(cache: map<Key, Value>, movies: seq<Movie>)
    requires forall m :: m in movies ==> Seen(cache, m.id)
    ensures Fresh(cache, movies) == []
    decreases |movies|
  {
    if movies != [] {
      var init := movies[..|movies| - 1];
      assert forall m :: m in init ==> m in movies;
      NothingFresh(cache, init);
    }
  }

  /**
   The save keeps exactly "last_uploaded" and the ids of the page, each with
   the value the cycle left it; every other key is dropped, in memory and on
   disk.
   */
  lemma CycleSaved(cache: map<Key, Value>, log: seq<Download>, movies: seq<Movie>, cfg: Config)
    ensures var r := Run(Start(cache, log, cfg.since), movies, cfg);
            var s := Saved(r, movies);
            (forall k :: k in s <==> k == LastUploaded || (k.Id? && k.id in Ids(movies)))
            && (forall k :: k in s ==> s[k] == Finish(r)[k])
  {
    RunCache(Start(cache, log, cfg.since), movies, cfg);
    VisitedKeys(movies);
    assert LastUploaded in Visited(movies);
  }

  /**
   Running a cycle again on the same page starts no download, and its loop
   leaves the cache as the first cycle saved it: every id was marked by the
   first cycle and kept by its save. The second save then stores the same
   cache again, unless the first watermark was 0: that is falsy, so the
   second cycle starts again from the configured default and stores that.
   */
  lemma SecondCycleDownloadsNothing(cache: map<Key, Value>, log: seq<Download>, movies: seq<Movie>, cfg: Config)
    ensures var r1 := Run(Start(cache, log, cfg.since), movies, cfg);
            var r2 := Run(Start(Saved(r1, movies), r1.log, cfg.since), movies, cfg);
            r2.downloaded == 0 && r2.log == r1.log && r2.cache == Saved(r1, movies)
            && (r1.last != 0 ==> Saved(r2, movies) == Saved(r1, movies))
            && (r1.last == 0 ==> Saved(r2, movies) == Saved(r1, movies)[LastUploaded := Stamp(cfg.since)])
  {
    var r1 := Run(Start(cache, log, cfg.since), movies, cfg);
    var c1 := Saved(r1, movies);
    var s2 := Start(c1, r1.log, cfg.since);
    RunSeen(Start(cache, log, cfg.since), movies, cfg);
    CycleSaved(cache, log, movies, cfg);
    IdsOfPage(movies);
    assert forall m :: m in movies ==> Seen(r1.cache, m.id) && Id(m.id) in c1 && c1[Id(m.id)] == r1.cache[Id(m.id)];
    assert forall m :: m in movies ==> Seen(c1, m.id);
    NothingFresh(c1, movies);
    RunLog(s2, movies, cfg);
    RunCache(s2, movies, cfg);
    assert Run(s2, movies, cfg).cache == c1;
    var r2 := Run(s2, movies, cfg);
    RunLast(s2, movies, cfg);
    VisitedKeys(movies);
    if r1.last != 0 {
      assert s2.last == r1.last;
      assert Finish(r2) == c1;
      assert Saved(r2, movies) == c1;
    } else {
      assert s2.last == cfg.since;
      assert Finish(r2) == c1[LastUploaded := Stamp(cfg.since)];
      assert Saved(r2, movies) == c1[LastUploaded := Stamp(cfg.since)];
    }
  }

  /**
   A witness that a first save of 0 happens and that the repeat cycle then
   saves the configured default: a stored -3, a default of 5 and one movie
   uploaded at 0 make the first cycle store 0 and the second 5.
   */
  lemma ZeroWatermarkNotKept()
    ensures var cfg := Config(5, [], "d");
            var m := Movie(1, "t", "R", 0, "u");
            var r1 := Run(Start(map[LastUploaded := Stamp(-3)], [], cfg.since), [m], cfg);
            var r2 := Run(Start(Saved(r1, [m]), r1.log, cfg.since), [m], cfg);
            Saved(r1, [m])[LastUploaded] == Stamp(0) && Saved(r2, [m])[LastUploaded] == Stamp(5)
  {
    var cfg := Config(5, [], "d");
    var m := Movie(1, "t", "R", 0, "u");
    assert [m][..0] == [];
    var p1 := Start(map[LastUploaded := Stamp(-3)], [], cfg.since);
    assert p1.last == -3 && !Seen(p1.cache, 1);
    assert Run(p1, [m][..0], cfg) == p1;
    var r1 := Run(p1, [m], cfg);
    assert r1 == Step(p1, m, cfg);
    assert r1.last == 0;
    CycleSaved(map[LastUploaded := Stamp(-3)], [], [m], cfg);
    var c1 := Saved(r1, [m]);
    assert c1[LastUploaded] == Stamp(0) && Seen(c1, 1);
    var s2 := Start(c1, r1.log, cfg.since);
    assert s2.last == 5;
    var r2 := Run(s2, [m], cfg);
    assert Run(s2, [m][..0], cfg) == s2;
    assert r2 == Step(s2, m, cfg) == s2;
    CycleSaved(Saved(r1, [m]), r1.log, [m], cfg);
  }

  /**
   The stored watermark never decreases from one cycle to the next, whatever
   the next page holds, as long as the configured default is not negative.
   */
  lemma WatermarkNeverDecreases(cache: map<Key, Value>, log: seq<Download>, page1: seq<Movie>, page2: seq<Movie>, cfg: Config)
    requires cfg.since >= 0
    ensures var r1 := Run(Start(cache, log, cfg.since), page1, cfg);
            var r2 := Run(Start(Saved(r1, page1), r1.log, cfg.since), page2, cfg);
            r2.last >= r1.last
  {
    var r1 := Run(Start(cache, log, cfg.since), page1, cfg);
    var s2 := Start(Saved(r1, page1), r1.log, cfg.since);
    CycleSaved(cache, log, page1, cfg);
    assert Saved(r1, page1)[LastUploaded] == Stamp(r1.last);
    RunLast(s2, page2, cfg);
    assert s2.last >= r1.last;
  }

  /**
   A cycle's saved cache marks every id of the page as seen, every id new to
   it as true, and keeps the value of every id it had seen.
   */
  lemma CycleMarks(cache: map<Key, Value>, log: seq<Download>, movies: seq<Movie>, cfg: Config)
    ensures var c := Saved(Run(Start(cache, log, cfg.since), movies, cfg), movies);
            (forall m :: m in movies ==> Seen(c, m.id))
            && (forall m :: m in movies && !Seen(cache, m.id) ==> Id(m.id) in c && c[Id(m.id)] == Flag(true))
            && (forall m :: m in movies && Seen(cache, m.id) ==> Id(m.id) in c && c[Id(m.id)] == cache[Id(m.id)])
  {
    var p0 := Start(cache, log, cfg.since);
    RunSeen(p0, movies, cfg);
    RunCache(p0, movies, cfg);
    CycleSaved(cache, log, movies, cfg);
    IdsOfPage(movies);
  }

  /**
   Before the save, a cycle leaves every key other than the page's ids and
   "last_uploaded" as it was; the save then drops those keys.
   */
  lemma CycleFrame(cache: map<Key, Value>, log: seq<Download>, movies: seq<Movie>, cfg: Config)
    ensures var c := Finish(Run(Start(cache, log, cfg.since), movies, cfg));
            forall k :: k != LastUploaded && !(k.Id? && k.id in Ids(movies)) ==>
              (k in c <==> k in cache) && (k in cache ==> c[k] == cache[k])
  {
    RunCache(Start(cache, log, cfg.since), movies, cfg);
  }

  /** A cycle saves the seed raised to the upload times of the page's new movies. */
  lemma CycleWatermark(cache: map<Key, Value>, log: seq<Download>, movies: seq<Movie>, cfg: Config)
    ensures var c := Saved(Run(Start(cache, log, cfg.since), movies, cfg), movies);
            LastUploaded in c
            && c[LastUploaded] == Stamp(MaxUpload(Seed(cache, cfg.since), Fresh(cache, movies)))
            && MaxUpload(Seed(cache, cfg.since), Fresh(cache, movies)) >= Seed(cache, cfg.since)
  {
    RunLast(Start(cache, log, cfg.since), movies, cfg);
    MaxUploadIsMaximum(Seed(cache, cfg.since), Fresh(cache, movies));
    CycleSaved(cache, log, movies, cfg);
  }

  /**
   The save prunes a movie that leaves the page: when a movie is downloaded
   in one cycle, the next page lacks its id, and a later page holds it again,
   it is downloaded a second time.
   */
  lemma PruneForgetsOffPageMovie(cache: map<Key, Value>, log: seq<Download>, m: Movie, other: seq<Movie>, cfg: Config)
    requires !Seen(cache, m.id) && Accepts(cfg, m)
    requires m.id !in Ids(other)
    ensures var r1 := Run(Start(cache, log, cfg.since), [m], cfg);
            var r2 := Run(Start(Saved(r1, [m]), r1.log, cfg.since), other, cfg);
            var r3 := Run(Start(Saved(r2, other), r2.log, cfg.since), [m], cfg);
            r1.log == log + [DownloadFor(cfg, m)]
            && r3.downloaded == 1 && r3.log == r2.log + [DownloadFor(cfg, m)]
  {
    var r1 := Run(Start(cache, log, cfg.since), [m], cfg);
    assert [m][..0] == [];
    var r2 := Run(Start(Saved(r1, [m]), r1.log, cfg.since), other, cfg);
    CycleSaved(Saved(r1, [m]), r1.log, other, cfg);
    assert Id(m.id) !in Saved(r2, other);
  }

  /** The cache after a sequence of cycles whose saves keep every key. */
  function AfterCycles(cache: map<Key, Value>, pages: seq<seq<Movie>>, cfg: Config): map<Key, Value>
    decreases |pages|
  {
    if pages == [] then cache
    else Finish(Run(Start(AfterCycles(cache, pages[..|pages| - 1], cfg), [], cfg.since), pages[|pages| - 1], cfg))
  }

  /**
   Saved without pruning, a seen id stays seen through every later cycle, so
   no later page treats a movie with that id as new and none downloads it.
   */
  lemma {:induction false} SeenStaysSeenWithoutPrune(cache: map<Key, Value>, pages: seq<seq<Movie>>, cfg: Config, id: int)
    requires Seen(cache, id)
    ensures Seen(AfterCycles(cache, pages, cfg), id)
    ensures forall next: seq<Movie>, m :: m in Fresh(AfterCycles(cache, pages, cfg), next) ==> m.id != id
    decreases |pages|
  {
    var c := AfterCycles(cache, pages, cfg);
    if pages != [] {
      var prev := AfterCycles(cache, pages[..|pages| - 1], cfg);
      SeenStaysSeenWithoutPrune(cache, pages[..|pages| - 1], cfg, id);
      RunSeen(Start(prev, [], cfg.since), pages[|pages| - 1], cfg);
    }
    forall next: seq<Movie>, m | m in Fresh(c, next)
      ensures m.id != id
    {
      FreshFromPage(c, next);
    }
  }

  /**
   A new movie that the MPA filter rejects starts no download, yet its id is
   marked as seen all the same, so later cycles skip it.
   */
  lemma RejectedMovieIsMarked(p: Pass, m: Movie, cfg: Config)
    requires !Seen(p.cache, m.id) && !Accepts(cfg, m)
    ensures Run(p, [m], cfg).log == p.log
    ensures Run(p, [m], cfg).downloaded == p.downloaded
    ensures Seen(Run(p, [m], cfg).cache, m.id)
  {
    assert [m][..0] == [];
  }

  /** The cycle controller: the persistent cache, the counters and the log of started downloads. */
  class Downloader {
    /** The in-memory cache, keyed by movie id and "last_uploaded". */
    var cache: map<Key, Value>
    /** The cache as last saved to disk. */
    var persisted: map<Key, Value>
    /** The keys read or written since the last save, which the next save keeps. */
    var visited: set<Key>
    /** Downloads started in the current cycle. */
    var downloaded: nat
    /** Downloads started since the process began. */
    var total: nat
    /** Every download started, in order. */
    var log: seq<Download>

    /** A process starting with the cache loaded from disk. */
    constructor (stored: map<Key, Value>)
      ensures cache == stored && persisted == stored && visited == {}
      ensures downloaded == 0 && total == 0 && log == []
    {
      cache := stored;
      persisted := stored;
      visited := {};
      downloaded := 0;
      total := 0;
      log := [];
    }

    /** Starts the transfer of a torrent to the destination directory and counts it. */
    method DownloadFile(url: string, title: string, destination: string)
      modifies this
      ensures log == old(log) + [Download(url, TargetPath(destination, title))]
      ensures downloaded == old(downloaded) + 1
      ensures cache == old(cache) && persisted == old(persisted) && visited == old(visited) && total == old(total)
    {
      var localFile := destination + "/" + title + ".torrent";
      log := log + [Download(url, localFile)];
      downloaded := downloaded + 1;
    }

    /**
     The per-movie callback of the cycle: a movie whose id is seen is left
     alone; any other movie is downloaded when the MPA filter passes it, is
     marked as seen either way, and raises the local watermark `last`.
     */
    method HandleMovie(movie: Movie, cfg: Config, last: int) returns (newLast: int)
      modifies this
      ensures Pass(cache, log, downloaded, newLast) == Step(Pass(old(cache), old(log), old(downloaded), last), movie, cfg)
      ensures visited == old(visited) + {Id(movie.id)}
      ensures persisted == old(persisted) && total == old(total)
    {
      newLast := last;
      visited := visited + {Id(movie.id)};
      if !(Id(movie.id) in cache && Truthy(cache[Id(movie.id)])) {
        if |cfg.mpaRatings| != 0 {
          if movie.mpaRating in cfg.mpaRatings {
            DownloadFile(movie.torrentUrl, movie.title, cfg.destination);
          }
        } else {
          DownloadFile(movie.torrentUrl, movie.title, cfg.destination);
        }
        cache := cache[Id(movie.id) := Flag(true)];
        if movie.dateUploaded > newLast {
          newLast := movie.dateUploaded;
        }
      }
    }

    /**
     The cache library's save without `noPrune`: the keys not visited since
     the last save are dropped (unless none was visited), the cache is
     written to disk, and the visited keys are forgotten.
     */
    method Save()
      modifies this
      ensures cache == Prune(old(cache), old(visited)) && persisted == cache && visited == {}
      ensures log == old(log) && downloaded == old(downloaded) && total == old(total)
    {
      if visited != {} {
        cache := map k | k in cache && k in visited :: cache[k];
      }
      visited := {};
      persisted := cache;
    }

    /**
     One cycle over a parsed page: the log and the counters end as `Run`
     describes; the downloads are exactly those of the new movies that pass
     the filter; the watermark is stored, and the save keeps only the keys
     the cycle touched: "last_uploaded", holding the seed raised to the new
     movies' upload times, and the page's ids, all seen, the new ones true;
     the total grows by this cycle's count. Between cycles no key is
     visited: loading visits none and every save forgets them.
     */
    method HandleResponse(movies: seq<Movie>, cfg: Config)
      requires visited == {}
      modifies this
      ensures var r := Run(Start(old(cache), old(log), cfg.since), movies, cfg);
              cache == Saved(r, movies) && log == r.log && downloaded == r.downloaded
      ensures log == old(log) + DownloadsOf(cfg, Fresh(old(cache), movies))
      ensures downloaded == |DownloadsOf(cfg, Fresh(old(cache), movies))|
      ensures total == old(total) + downloaded
      ensures persisted == cache && visited == {}
      ensures forall m :: m in movies ==> Seen(cache, m.id)
      ensures forall m :: m in movies && !Seen(old(cache), m.id) ==> Id(m.id) in cache && cache[Id(m.id)] == Flag(true)
      ensures forall m :: m in movies && Seen(old(cache), m.id) ==> Id(m.id) in cache && cache[Id(m.id)] == old(cache)[Id(m.id)]
      ensures forall k :: k in cache <==> k == LastUploaded || (k.Id? && k.id in Ids(movies))
      ensures LastUploaded in cache
      ensures cache[LastUploaded] == Stamp(MaxUpload(Seed(old(cache), cfg.since), Fresh(old(cache), movies)))
      ensures cache[LastUploaded].t >= Seed(old(cache), cfg.since)
    {
      ghost var p0 := Start(cache, log, cfg.since);
      visited := visited + {LastUploaded};
      var last := if LastUploaded in cache && cache[LastUploaded].Stamp? && cache[LastUploaded].t != 0
                  then cache[LastUploaded].t else cfg.since;
      downloaded := 0;
      for i := 0 to |movies|
        invariant Pass(cache, log, downloaded, last) == Run(p0, movies[..i], cfg)
        invariant visited == Visited(movies[..i])
        invariant total == old(total)
      {
        last := HandleMovie(movies[i], cfg, last);
        assert movies[..i + 1][..i] == movies[..i];
      }
      assert movies[..|movies|] == movies;
      cache := cache[LastUploaded := Stamp(last)];
      Save();
      total := total + downloaded;
      RunLog(p0, movies, cfg);
      CycleMarks(old(cache), old(log), movies, cfg);
      CycleSaved(old(cache), old(log), movies, cfg);
      CycleWatermark(old(cache), old(log), movies, cfg);
    }
  }
}
