/** The native label set of package component. */
module Component {
  datatype LabelSet = LabelSet(labels: map<string, string>)
}
