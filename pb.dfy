/** The wire messages of package pb that the plain-data mappers read and build. */
module Pb {
  /** Args.DataDir.Project */
  datatype ArgsDataDirProject = ArgsDataDirProject(cacheDir: string, dataDir: string)

  /** Args.DataDir.App */
  datatype ArgsDataDirApp = ArgsDataDirApp(cacheDir: string, dataDir: string)

  /** Args.DataDir.Component */
  datatype ArgsDataDirComponent = ArgsDataDirComponent(cacheDir: string, dataDir: string)

  /** Args.LabelSet: a mapping of label names to label values. */
  datatype ArgsLabelSet = ArgsLabelSet(labels: map<string, string>)
}
