/** The inputs the form framework hands a Location field. */
module FieldProps {
  import opened Wrappers
  import opened LocationValue

  /** Input names the framework assigns to the geo inputs and the two autodetect checkboxes. */
  datatype Paths = Paths(geo: string, improve: string, overwrite: string)

  /**
   The component's props. `shouldRenderField` is the verdict of the framework's
   `shouldRenderField()`, whose policy lives outside this component.
   */
  datatype Props = Props(
    value: Option<Location>,
    path: string,
    paths: Paths,
    labelText: string,
    note: Option<string>,
    collapse: bool,
    enableMapsAPI: bool,
    shouldRenderField: bool)

  /**
   `const { value = {} } = this.props`: the value the handlers read. componentWillMount
   defaults to `[]` instead, which reads the same: it has none of the nine keys.
   */
  function Current(p: Props): (loc: Location)
    ensures p.value == None ==> loc == Empty
    ensures p.value != None ==> loc == p.value.value
  {
    match p.value
    case None => Empty
    case Some(loc) => loc
  }
}
