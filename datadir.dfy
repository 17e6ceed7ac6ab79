/**
 * The native working-directory handles of package datadir, as far as the
 * mappers use them: a directory is seen only through its CacheDir() and
 * DataDir() accessors, and Project, App and Component each wrap one
 * directory and expose its accessors as their own.
 */
module Datadir {
  /** A directory handle: the cache path and the data path it reports. */
  datatype BasicDir = BasicDir(cache: string, data: string) {
    function CacheDir(): string { cache }
    function DataDir(): string { data }
  }

  /**
   * ASSUMED CONTRACT of datadir.NewBasicDir, whose code is not part of this
   * model: the handle it builds reports its first argument as CacheDir() and
   * its second as DataDir().  The body below is chosen to meet exactly that
   * contract; every round-trip result about the datadir mappers rests on it.
   */
  function NewBasicDir(cacheDir: string, dataDir: string): (d: BasicDir)
    ensures d.CacheDir() == cacheDir && d.DataDir() == dataDir
  {
    BasicDir(cacheDir, dataDir)
  }

  /** datadir.Project: the project-scoped directory. */
  datatype Project = Project(dir: BasicDir) {
    function CacheDir(): string { dir.CacheDir() }
    function DataDir(): string { dir.DataDir() }
  }

  /** datadir.App: the application-scoped directory. */
  datatype App = App(dir: BasicDir) {
    function CacheDir(): string { dir.CacheDir() }
    function DataDir(): string { dir.DataDir() }
  }

  /** datadir.Component: the component-scoped directory. */
  datatype Component = Component(dir: BasicDir) {
    function CacheDir(): string { dir.CacheDir() }
    function DataDir(): string { dir.DataDir() }
  }
}
