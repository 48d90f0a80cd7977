/** The host IDE's program-structure values the core reads: types, parameters,
    methods and classes of the source file, as plain values. */
module Psi {
  import opened Wrappers

  /** A declared psiType: a primitive (`int`, `long`, ...) or any reference type,
      with its fully qualified and its short spelling. */
  datatype PsiType =
    | PrimitiveType(keyword: string)
    | ClassType(canonicalText: string, presentableText: string)
  {
    /** `PsiType.getCanonicalText()` */
    function CanonicalText(): string {
      if PrimitiveType? then keyword else canonicalText
    }

    /** `PsiType.getPresentableText()` */
    function PresentableText(): string {
      if PrimitiveType? then keyword else presentableText
    }
  }

  /** `PsiType.INT` */
  const INT: PsiType := PrimitiveType("int")

  datatype AccessLevel = Private | PackageLocal | Protected | Public

  /** A declared parameter; the host may report no name for it. */
  datatype PsiParameter = PsiParameter(name: Option<string>, psiType: PsiType)

  /** A method or constructor of the source class. `returnType` is `None` for
      constructors. */
  datatype PsiMethod = PsiMethod(
    name: string,
    isConstructor: bool,
    access: AccessLevel,
    returnType: Option<PsiType>,
    parameters: seq<PsiParameter>)

  datatype PsiClass = PsiClass(name: string, methods: seq<PsiMethod>)
}
