/**
 * The record the Java parser front end hands to the rest of the pipeline
 * (`src/ast_parser.py`): the compilation unit's imports and, for every class,
 * its name, modifiers, superclass, interfaces, fields, methods and
 * constructors. Type names arrive as bare names: the front end keeps
 * `type.name`, which has already lost generic arguments and array brackets.
 */
module JavaModel {
  import opened Wrappers

  /**
   * A field initializer as the mapper may meet it. The front end stores the
   * literal's `value` text (`StrInit`), but the mapper also accepts a
   * dictionary with a `value` entry, a Python bool, int or float, or any
   * object with a `value` attribute, and returns nothing for everything else.
   */
  datatype Initializer =
    | NoInit                      // `None`
    | StrInit(text: string)       // a `str`
    | BoolInit(b: bool)           // a Python `bool`
    | IntInit(i: int)             // a Python `int`
    | FloatInit(repr: FloatText)  // a Python `float`, by its `str()` text
    | DictInit(value: Initializer) // a dict; a missing `value` key is `NoInit`
    | ObjInit(value: Initializer)  // an object with a `value` attribute
    | OtherInit                   // anything else

  /** `str(x)` of a float is never empty. */
  type FloatText = s: string | |s| > 0 witness "0.0"

  datatype JavaParam = JavaParam(name: string, typ: string)

  datatype JavaField = JavaField(name: string, typ: string, modifiers: seq<string>, initializer: Initializer)

  /** A method body is an opaque list of statements, or `None` for an abstract method. */
  type Body = Option<seq<string>>

  /** A body is truthy when it is a non-empty statement list. */
  predicate BodyTruthy(b: Body) { b.Some? && b.value != [] }

  datatype JavaMethod = JavaMethod(
    name: string,
    modifiers: seq<string>,
    returnType: string,
    parameters: seq<JavaParam>,
    body: Body)

  datatype JavaConstructor = JavaConstructor(
    name: string,
    modifiers: seq<string>,
    parameters: seq<JavaParam>,
    body: Body)

  datatype JavaClass = JavaClass(
    name: string,
    modifiers: seq<string>,
    superclass: Option<string>,
    interfaces: seq<string>,
    fields: seq<JavaField>,
    methods: seq<JavaMethod>,
    constructors: seq<JavaConstructor>)
  {
    /** `class_info.get('extends')` is truthy. */
    predicate HasSuperclass() { superclass.Some? && superclass.value != "" }
  }

  datatype JavaStructure = JavaStructure(imports: seq<string>, classes: seq<JavaClass>)
}
