/**
  Identities of the OpenGL objects that the capture driver tracks.

  A `GLResource` is the triple (context, namespace, name): the context that
  owns the object (or NULL when the object is shared by every context), the
  kind of object, and the name the driver handed out. Identities compare
  fieldwise for equality and lexicographically for `<`, so that they can key
  an ordered map. The per-kind constructor helpers apply the context-sharing
  rule: kinds that GL shares between contexts drop the context, framebuffers
  and vertex arrays drop it only when the vendor shares them, and program
  pipelines, transform feedback objects and queries keep it.
*/
module GLResources {

  /** An unsigned 32-bit GL integer (`GLuint`). */
  type GLuint = x: int | 0 <= x < 0x1_0000_0000

  /** A GL enumerant (`GLenum`), also 32 bits unsigned. */
  type GLenum = GLuint

  const eGL_NONE: GLenum := 0

  /** A context pointer, compared by address; 0 is NULL. */
  type ContextPtr = nat

  const NULL: ContextPtr := 0

  /** The kinds of GL object, in the order of their enumerator values. */
  datatype GLNamespace =
    | eResUnknown
    | eResSpecial
    | eResTexture
    | eResSampler
    | eResFramebuffer
    | eResRenderbuffer
    | eResBuffer
    | eResVertexArray
    | eResShader
    | eResProgram
    | eResProgramPipe
    | eResFeedback
    | eResQuery
    | eResSync

  /** How many enumerators `GLNamespace` has. */
  const NamespaceCount: nat := 14

  /** The integer value of a `GLNamespace` enumerator, which `<` compares. */
  function NamespaceValue(n: GLNamespace): nat
  {
    match n
    case eResUnknown => 0
    case eResSpecial => 1
    case eResTexture => 2
    case eResSampler => 3
    case eResFramebuffer => 4
    case eResRenderbuffer => 5
    case eResBuffer => 6
    case eResVertexArray => 7
    case eResShader => 8
    case eResProgram => 9
    case eResProgramPipe => 10
    case eResFeedback => 11
    case eResQuery => 12
    case eResSync => 13
  }

  /** Distinct enumerators have distinct values, all below `NamespaceCount`. */
  lemma NamespaceValueInjective(m: GLNamespace, n: GLNamespace)
    ensures NamespaceValue(m) < NamespaceCount
    ensures NamespaceValue(m) == NamespaceValue(n) <==> m == n
  {
  }

  datatype GLResource = GLResource(Context: ContextPtr, Namespace: GLNamespace, name: GLuint)

  /**
    `GLResource()` and `GLResource(MakeNullResource)`: the unknown namespace
    and the name `~0U`. Neither constructor writes `Context`, so whatever the
    storage held is passed in as `uninitialised`.
  */
  function NullResource(uninitialised: ContextPtr): (r: GLResource)
    ensures r.Namespace == eResUnknown
    ensures r.name == 0xFFFF_FFFF
    ensures r.Context == uninitialised
  {
    GLResource(uninitialised, eResUnknown, (!(0 as bv32)) as GLuint)
  }

  /** Two null resources are equal exactly when their unwritten contexts happen to agree. */
  lemma NullResourcesEqualIff(u: ContextPtr, v: ContextPtr)
    ensures NullResource(u) == NullResource(v) <==> u == v
  {
  }

  /** `operator ==`: all three fields match. */
  function Equal(a: GLResource, b: GLResource): (r: bool)
    ensures r <==> a == b
  {
    a.Context == b.Context && a.Namespace == b.Namespace && a.name == b.name
  }

  /** `operator !=`: the negation of `==`. */
  function NotEqual(a: GLResource, b: GLResource): (r: bool)
    ensures r <==> a != b
  {
    !Equal(a, b)
  }

  /** `operator <`: context first, then namespace, then name; that is, the lexicographic order of the fields. */
  function Less(a: GLResource, b: GLResource): (r: bool)
    ensures r == LexLess(Fields(a), Fields(b))
  {
    NamespaceValueInjective(a.Namespace, b.Namespace);
    LexLessOfThree(Fields(a), Fields(b));
    if a.Context != b.Context then a.Context < b.Context
    else if a.Namespace != b.Namespace then NamespaceValue(a.Namespace) < NamespaceValue(b.Namespace)
    else a.name < b.name
  }

  // ---------------------------------------------------------------------------
  // `<` as the lexicographic order on the field sequence.
  // ---------------------------------------------------------------------------

  /** Lexicographic order on equal-length sequences: the first position where they differ decides. */
  function LexLess(x: seq<int>, y: seq<int>): bool
    requires |x| == |y|
    decreases |x|
  {
    if x == [] then false
    else if x[0] != y[0] then x[0] < y[0]
    else LexLess(x[1..], y[1..])
  }

  lemma {:induction false} LexLessIrreflexive(x: seq<int>)
    ensures !LexLess(x, x)
    decreases |x|
  {
    if x != [] {
      LexLessIrreflexive(x[1..]);
    }
  }

  lemma {:induction false} LexLessTransitive(x: seq<int>, y: seq<int>, z: seq<int>)
    requires |x| == |y| == |z|
    requires LexLess(x, y) && LexLess(y, z)
    ensures LexLess(x, z)
    decreases |x|
  {
    if x[0] == y[0] && y[0] == z[0] {
      LexLessTransitive(x[1..], y[1..], z[1..]);
    }
  }

  lemma {:induction false} LexLessTrichotomous(x: seq<int>, y: seq<int>)
    requires |x| == |y|
    ensures LexLess(x, y) || LexLess(y, x) || x == y
    ensures !(LexLess(x, y) && LexLess(y, x))
    ensures x == y ==> !LexLess(x, y)
    decreases |x|
  {
    LexLessIrreflexive(x);
    if x != [] && x[0] == y[0] {
      LexLessTrichotomous(x[1..], y[1..]);
      if x[1..] == y[1..] {
        assert x == [x[0]] + x[1..] && y == [y[0]] + y[1..];
      }
    }
  }

  /** The fields in the order `<` compares them, namespaces by enumerator value. */
  function Fields(r: GLResource): (s: seq<int>)
    ensures |s| == 3
  {
    [r.Context, NamespaceValue(r.Namespace), r.name]
  }

  /** On three-element sequences the lexicographic order is the three-step comparison. */
  lemma LexLessOfThree(x: seq<int>, y: seq<int>)
    requires |x| == |y| == 3
    ensures LexLess(x, y) == if x[0] != y[0] then x[0] < y[0]
                             else if x[1] != y[1] then x[1] < y[1]
                             else x[2] < y[2]
  {
    assert x[1..] == [x[1], x[2]] && y[1..] == [y[1], y[2]];
    assert x[1..][1..] == [x[2]] && y[1..][1..] == [y[2]];
    assert LexLess([x[2]], [y[2]]) == (x[2] < y[2]);
  }

  /** The field sequence determines the identity, so `<` on identities inherits the lexicographic order's laws. */
  lemma FieldsInjective(a: GLResource, b: GLResource)
    ensures Fields(a) == Fields(b) <==> a == b
  {
    NamespaceValueInjective(a.Namespace, b.Namespace);
    if Fields(a) == Fields(b) {
      assert Fields(a)[1] == Fields(b)[1];
    }
  }

  /** No identity is below itself. */
  lemma LessIrreflexive(a: GLResource)
    ensures !Less(a, a)
  {
    LexLessIrreflexive(Fields(a));
  }

  /** `<` is transitive. */
  lemma {:induction false} LessTransitive(a: GLResource, b: GLResource, c: GLResource)
    requires Less(a, b) && Less(b, c)
    ensures Less(a, c)
  {
    LexLessTransitive(Fields(a), Fields(b), Fields(c));
  }

  /** For any two identities exactly one of a < b, b < a and a == b holds. */
  lemma {:induction false} LessTrichotomous(a: GLResource, b: GLResource)
    ensures Less(a, b) || Less(b, a) || a == b
    ensures !(Less(a, b) && Less(b, a))
    ensures a == b ==> !Less(a, b)
  {
    FieldsInjective(a, b);
    LexLessTrichotomous(Fields(a), Fields(b));
  }

  // ---------------------------------------------------------------------------
  // Per-namespace constructor helpers.
  // ---------------------------------------------------------------------------

  /** The two vendor capability flags the helpers consult. */
  datatype VendorChecks = VendorChecks(EXT_fbo_shared: bool, EXT_vao_shared: bool)

  /**
    The context-sharing rule, per namespace: whether objects of this kind are
    shared by every context of a share group, so that their identity must not
    depend on the context that named them. Textures, samplers, renderbuffers,
    buffers, shaders, programs and syncs always are; framebuffers and vertex
    arrays are when the vendor flag says so; the other kinds never are.
  */
  predicate SharedAcrossContexts(vc: VendorChecks, ns: GLNamespace)
  {
    match ns
    case eResTexture | eResSampler | eResRenderbuffer | eResBuffer | eResShader | eResProgram | eResSync => true
    case eResFramebuffer => vc.EXT_fbo_shared
    case eResVertexArray => vc.EXT_vao_shared
    case _ => false
  }

  /** The canonical identity the sharing rule asks for. */
  function Canonical(vc: VendorChecks, ns: GLNamespace, ctx: ContextPtr, i: GLuint): GLResource
  {
    GLResource(if SharedAcrossContexts(vc, ns) then NULL else ctx, ns, i)
  }

  // Each helper builds the canonical identity of its own namespace. The
  // helpers that do not read a vendor flag do so whatever the flags are.

  function TextureRes(ctx: ContextPtr, i: GLuint): (r: GLResource)
    ensures forall vc :: r == Canonical(vc, eResTexture, ctx, i)
  {
    GLResource(NULL, eResTexture, i)
  }

  function SamplerRes(ctx: ContextPtr, i: GLuint): (r: GLResource)
    ensures forall vc :: r == Canonical(vc, eResSampler, ctx, i)
  {
    GLResource(NULL, eResSampler, i)
  }

  function FramebufferRes(vc: VendorChecks, ctx: ContextPtr, i: GLuint): (r: GLResource)
    ensures r == Canonical(vc, eResFramebuffer, ctx, i)
  {
    GLResource(if vc.EXT_fbo_shared then NULL else ctx, eResFramebuffer, i)
  }

  function RenderbufferRes(ctx: ContextPtr, i: GLuint): (r: GLResource)
    ensures forall vc :: r == Canonical(vc, eResRenderbuffer, ctx, i)
  {
    GLResource(NULL, eResRenderbuffer, i)
  }

  function BufferRes(ctx: ContextPtr, i: GLuint): (r: GLResource)
    ensures forall vc :: r == Canonical(vc, eResBuffer, ctx, i)
  {
    GLResource(NULL, eResBuffer, i)
  }

  function VertexArrayRes(vc: VendorChecks, ctx: ContextPtr, i: GLuint): (r: GLResource)
    ensures r == Canonical(vc, eResVertexArray, ctx, i)
  {
    GLResource(if vc.EXT_vao_shared then NULL else ctx, eResVertexArray, i)
  }

  function ShaderRes(ctx: ContextPtr, i: GLuint): (r: GLResource)
    ensures forall vc :: r == Canonical(vc, eResShader, ctx, i)
  {
    GLResource(NULL, eResShader, i)
  }

  function ProgramRes(ctx: ContextPtr, i: GLuint): (r: GLResource)
    ensures forall vc :: r == Canonical(vc, eResProgram, ctx, i)
  {
    GLResource(NULL, eResProgram, i)
  }

  function ProgramPipeRes(ctx: ContextPtr, i: GLuint): (r: GLResource)
    ensures forall vc :: r == Canonical(vc, eResProgramPipe, ctx, i)
  {
    GLResource(ctx, eResProgramPipe, i)
  }

  function FeedbackRes(ctx: ContextPtr, i: GLuint): (r: GLResource)
    ensures forall vc :: r == Canonical(vc, eResFeedback, ctx, i)
  {
    GLResource(ctx, eResFeedback, i)
  }

  function QueryRes(ctx: ContextPtr, i: GLuint): (r: GLResource)
    ensures forall vc :: r == Canonical(vc, eResQuery, ctx, i)
  {
    GLResource(ctx, eResQuery, i)
  }

  function SyncRes(ctx: ContextPtr, i: GLuint): (r: GLResource)
    ensures forall vc :: r == Canonical(vc, eResSync, ctx, i)
  {
    GLResource(NULL, eResSync, i)
  }

  /** Under the sharing rule, two contexts name the same object exactly when they are the same context or the kind is shared. */
  lemma {:induction false} CanonicalContextIndependentIff(vc: VendorChecks, ns: GLNamespace, a: ContextPtr, b: ContextPtr, i: GLuint)
    ensures Canonical(vc, ns, a, i) == Canonical(vc, ns, b, i) <==> a == b || SharedAcrossContexts(vc, ns)
  {
  }

  /** The always-shared kinds ignore the context: their identity has a NULL context whichever context named them. */
  lemma SharedKindsIgnoreContext(a: ContextPtr, b: ContextPtr, i: GLuint)
    ensures TextureRes(a, i) == TextureRes(b, i) && TextureRes(a, i).Context == NULL
    ensures SamplerRes(a, i) == SamplerRes(b, i) && SamplerRes(a, i).Context == NULL
    ensures RenderbufferRes(a, i) == RenderbufferRes(b, i) && RenderbufferRes(a, i).Context == NULL
    ensures BufferRes(a, i) == BufferRes(b, i) && BufferRes(a, i).Context == NULL
    ensures ShaderRes(a, i) == ShaderRes(b, i) && ShaderRes(a, i).Context == NULL
    ensures ProgramRes(a, i) == ProgramRes(b, i) && ProgramRes(a, i).Context == NULL
    ensures SyncRes(a, i) == SyncRes(b, i) && SyncRes(a, i).Context == NULL
  {
  }

  /** Framebuffers and vertex arrays coincide across contexts exactly when the vendor flag for them is set. */
  lemma VendorKindsFollowFlags(vc: VendorChecks, a: ContextPtr, b: ContextPtr, i: GLuint)
    ensures FramebufferRes(vc, a, i) == FramebufferRes(vc, b, i) <==> vc.EXT_fbo_shared || a == b
    ensures VertexArrayRes(vc, a, i) == VertexArrayRes(vc, b, i) <==> vc.EXT_vao_shared || a == b
    ensures vc.EXT_fbo_shared ==> FramebufferRes(vc, a, i).Context == NULL
    ensures !vc.EXT_fbo_shared ==> FramebufferRes(vc, a, i).Context == a
    ensures vc.EXT_vao_shared ==> VertexArrayRes(vc, a, i).Context == NULL
    ensures !vc.EXT_vao_shared ==> VertexArrayRes(vc, a, i).Context == a
  {
  }

  /** Program pipelines, transform feedback objects and queries always keep the context. */
  lemma PerContextKindsKeepContext(a: ContextPtr, b: ContextPtr, i: GLuint)
    ensures ProgramPipeRes(a, i).Context == a && FeedbackRes(a, i).Context == a && QueryRes(a, i).Context == a
    ensures ProgramPipeRes(a, i) == ProgramPipeRes(b, i) <==> a == b
    ensures FeedbackRes(a, i) == FeedbackRes(b, i) <==> a == b
    ensures QueryRes(a, i) == QueryRes(b, i) <==> a == b
  {
  }

  /**
    Every helper keeps the name it was given, so two identities of one kind
    from one context are equal only for equal names, and no helper's result
    is a null resource (whose namespace is eResUnknown).
  */
  lemma HelpersKeepNameAndNamespace(vc: VendorChecks, ns: GLNamespace, ctx: ContextPtr, i: GLuint, j: GLuint, u: ContextPtr)
    ensures Canonical(vc, ns, ctx, i).name == i && Canonical(vc, ns, ctx, i).Namespace == ns
    ensures Canonical(vc, ns, ctx, i) == Canonical(vc, ns, ctx, j) <==> i == j
    ensures ns != eResUnknown ==> Canonical(vc, ns, ctx, i) != NullResource(u)
  {
  }
}
