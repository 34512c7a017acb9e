/**
 * The Python-side record the semantic mapper produces and the code generator
 * reads. Entries the generator looks up with a default (`python_name`,
 * `type`, `return_type`, a parameter's `annotation`) are optional here, so
 * the generator's fallbacks can be stated; the mapper always fills them.
 */
module PythonModel {
  import opened Wrappers
  import JavaModel

  datatype PyParam = PyParam(name: string, typ: string, annotation: Option<string>)

  datatype PyField = PyField(
    name: string,
    pythonName: Option<string>,
    typ: Option<string>,
    isClassVariable: bool,
    isConstant: bool,
    isPrivate: bool,
    initializer: Option<string>,
    annotation: string)
  {
    /** `field.get('initializer')` is truthy: present and not the empty string. */
    predicate HasInitializer() { initializer.Some? && initializer.value != "" }
  }

  datatype PyMethod = PyMethod(
    name: string,
    pythonName: Option<string>,
    parameters: seq<PyParam>,
    returnType: Option<string>,
    isStatic: bool,
    isAbstract: bool,
    isPrivate: bool,
    body: JavaModel.Body,
    decorators: seq<string>)

  /** A mapped constructor: always named `__init__`. */
  datatype PyConstructor = PyConstructor(name: string, parameters: seq<PyParam>, body: JavaModel.Body)

  datatype PyClass = PyClass(
    name: string,
    baseClasses: seq<string>,
    fields: seq<PyField>,
    methods: seq<PyMethod>,
    constructors: seq<PyConstructor>,
    isAbstract: bool)

  datatype PyStructure = PyStructure(imports: seq<string>, classes: seq<PyClass>)
}
