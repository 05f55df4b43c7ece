# GL resource identities and tracking records

This project models the identity and tracking layer of RenderDoc's OpenGL
capture driver, as declared in `renderdoc/driver/gl/gl_resources.h`.

- `gl_resource.dfy`, module `GLResources`. This is the identity value type
  `GLResource`, the triple (context, namespace, name). It has fieldwise `==`
  and `!=` and a lexicographic `<`, and its designated null value is
  `GLResource()` / `GLResource(MakeNullResource)`. Twelve per-namespace
  helpers (`TextureRes` … `SyncRes`) apply the context-sharing rule. `<` is
  shown to be the lexicographic order (`LexLess`) on the field sequence
  (context, namespace value, name). That order is proved by induction to be
  a strict total order, and so is `<`. The helpers are proved to build the identity
  that the sharing rule asks for (`Canonical`):
  - textures, samplers, renderbuffers, buffers, shaders, programs and syncs
    are shared by every context;
  - framebuffers and vertex arrays are shared only when the vendor flag says
    so;
  - program pipelines, transform feedback objects and queries are never
    shared.
- `gl_resource_record.dfy`, module `GLRecords`. This is the per-resource
  record `GLResourceRecord`, written as a class:
  - the `dataType`/`usage` pair;
  - the `Map` sub-record with its `MapStatus`;
  - the two-slot shadow-pointer array.

  `VerifyDataType` is the first-bind-wins target check, and `AlreadyDataType`
  is its query form. `AllocShadowStorage` and `FreeShadowStorage` are the
  idempotent paired allocation and release. Every method keeps the
  invariant "both shadow slots hold a buffer or neither does".
- `aligned_alloc.dfy`, module `AlignedAlloc`. This is a small stand-in for
  the serialiser's aligned allocator. It keeps the set of live blocks, so
  "no leak, no double free" can be stated.

Context pointers and byte pointers are natural numbers compared by address,
with 0 as NULL. `GLuint`, `GLenum` and `GLbitfield` are 32-bit unsigned
ranges. The global `VendorCheck` array is replaced by a `VendorChecks`
value holding the two flags the helpers read. `TextureBinding`, which the
header only declares, is passed to the two data-type methods as a function
parameter.

## Model

| member | source | states |
|---|---|---|
| GLResources.NamespaceValueInjective | renderdoc/driver/gl/gl_resources.h:55-71 | the namespace enumerators have distinct values, all below 14 |
| GLResources.NullResource | renderdoc/driver/gl/gl_resources.h:83-84 | the default and null constructors give namespace eResUnknown and name ~0U = 0xFFFFFFFF, and leave the context as it was |
| GLResources.NullResourcesEqualIff | renderdoc/driver/gl/gl_resources.h:83-93 | two null resources compare equal exactly when their unwritten contexts agree |
| GLResources.Equal | renderdoc/driver/gl/gl_resources.h:91-94 | `==` holds exactly when the two identities are the same triple |
| GLResources.NotEqual | renderdoc/driver/gl/gl_resources.h:96-99 | `!=` holds exactly when the identities differ |
| GLResources.Less | renderdoc/driver/gl/gl_resources.h:101-106 | `operator <` is the lexicographic order of the field sequence (context, namespace value, name) |
| GLResources.LexLessOfThree | renderdoc/driver/gl/gl_resources.h:103-105 | on three fields the lexicographic order is the three-step comparison: first differing field decides |
| GLResources.FieldsInjective | renderdoc/driver/gl/gl_resources.h:101-106 | the field sequence determines the identity, so equal sequences mean equal identities |
| GLResources.LexLessIrreflexive | renderdoc/driver/gl/gl_resources.h:101-106 | the lexicographic order places no sequence below itself |
| GLResources.LexLessTransitive | renderdoc/driver/gl/gl_resources.h:101-106 | the lexicographic order is transitive |
| GLResources.LexLessTrichotomous | renderdoc/driver/gl/gl_resources.h:101-106 | for equal-length sequences exactly one of x < y, y < x, x == y holds lexicographically |
| GLResources.LessIrreflexive | renderdoc/driver/gl/gl_resources.h:101-106 | no identity is below itself |
| GLResources.LessTransitive | renderdoc/driver/gl/gl_resources.h:101-106 | `<` is transitive |
| GLResources.LessTrichotomous | renderdoc/driver/gl/gl_resources.h:101-106 | for any a, b exactly one of a < b, b < a, a == b holds |
| GLResources.TextureRes | renderdoc/driver/gl/gl_resources.h:113 | builds the canonical texture identity for every setting of the vendor flags: the kind is always shared, so the context is NULL and the name kept |
| GLResources.SamplerRes | renderdoc/driver/gl/gl_resources.h:114 | builds the canonical sampler identity for every setting of the vendor flags: the kind is always shared, so the context is NULL and the name kept |
| GLResources.FramebufferRes | renderdoc/driver/gl/gl_resources.h:115 | builds the canonical framebuffer identity under the given vendor flags: NULL context when EXT_fbo_shared is set, the given context otherwise, name kept |
| GLResources.RenderbufferRes | renderdoc/driver/gl/gl_resources.h:116 | builds the canonical renderbuffer identity for every setting of the vendor flags: the kind is always shared, so the context is NULL and the name kept |
| GLResources.BufferRes | renderdoc/driver/gl/gl_resources.h:117 | builds the canonical buffer identity for every setting of the vendor flags: the kind is always shared, so the context is NULL and the name kept |
| GLResources.VertexArrayRes | renderdoc/driver/gl/gl_resources.h:118 | builds the canonical vertex-array identity under the given vendor flags: NULL context when EXT_vao_shared is set, the given context otherwise, name kept |
| GLResources.ShaderRes | renderdoc/driver/gl/gl_resources.h:119 | builds the canonical shader identity for every setting of the vendor flags: the kind is always shared, so the context is NULL and the name kept |
| GLResources.ProgramRes | renderdoc/driver/gl/gl_resources.h:120 | builds the canonical program identity for every setting of the vendor flags: the kind is always shared, so the context is NULL and the name kept |
| GLResources.ProgramPipeRes | renderdoc/driver/gl/gl_resources.h:121 | builds the canonical program-pipeline identity for every setting of the vendor flags: the kind is never shared, so the context and name are kept |
| GLResources.FeedbackRes | renderdoc/driver/gl/gl_resources.h:122 | builds the canonical transform-feedback identity for every setting of the vendor flags: the kind is never shared, so the context and name are kept |
| GLResources.QueryRes | renderdoc/driver/gl/gl_resources.h:123 | builds the canonical query identity for every setting of the vendor flags: the kind is never shared, so the context and name are kept |
| GLResources.SyncRes | renderdoc/driver/gl/gl_resources.h:124 | builds the canonical sync identity for every setting of the vendor flags: the kind is always shared, so the context is NULL and the name kept |
| GLResources.CanonicalContextIndependentIff | renderdoc/driver/gl/gl_resources.h:113-124 | two contexts get the same identity for a name exactly when they are the same context or the kind is shared |
| GLResources.SharedKindsIgnoreContext | renderdoc/driver/gl/gl_resources.h:113-124 | texture, sampler, renderbuffer, buffer, shader, program and sync identities have a NULL context and do not depend on the context passed |
| GLResources.VendorKindsFollowFlags | renderdoc/driver/gl/gl_resources.h:115-118 | framebuffer (vertex-array) identities from two contexts coincide exactly when the contexts are the same or EXT_fbo_shared (EXT_vao_shared) is set; a set flag gives a NULL context and a clear one keeps the context |
| GLResources.PerContextKindsKeepContext | renderdoc/driver/gl/gl_resources.h:121-123 | program pipeline, feedback and query identities keep the context, so different contexts give different identities |
| GLResources.HelpersKeepNameAndNamespace | renderdoc/driver/gl/gl_resources.h:113-124 | a helper keeps the name and sets its namespace, is injective in the name, and never yields a null resource |
| GLRecords.ErasedMap | renderdoc/driver/gl/gl_resources.h:135-136 | erasing the `Map` sub-record leaves every field at its zero value |
| GLRecords.ZeroedMapIsUnmapped | renderdoc/driver/gl/gl_resources.h:144-163 | a zeroed `Map` is Unmapped, with no live persistent maps and NULL pointers |
| GLRecords.GLResourceRecord.constructor | renderdoc/driver/gl/gl_resources.h:130-137 | a new record has dataType and usage eGL_NONE, a zeroed Map, a default-constructed Resource and both shadow slots NULL |
| GLRecords.GLResourceRecord.Destroy | renderdoc/driver/gl/gl_resources.h:139-142 | the destructor frees the shadow pair if one is held and leaves both slots NULL |
| GLRecords.GLResourceRecord.VerifyDataType | renderdoc/driver/gl/gl_resources.h:165-174 | an omitted target changes nothing, and a first target sets dataType to its binding; afterwards dataType equals the binding of every non-omitted target |
| GLRecords.GLResourceRecord.AlreadyDataType | renderdoc/driver/gl/gl_resources.h:176-179 | the result says whether dataType is the binding of the target, and when true VerifyDataType's check passes |
| GLRecords.GLResourceRecord.AllocShadowStorage | renderdoc/driver/gl/gl_resources.h:186-193 | when slot 0 is NULL, allocates two fresh blocks of the same size; otherwise changes nothing; the pair invariant holds after |
| GLRecords.GLResourceRecord.FreeShadowStorage | renderdoc/driver/gl/gl_resources.h:195-203 | frees exactly the held pair, if any, and always leaves both slots NULL; the pair invariant holds after |
| GLRecords.GLResourceRecord.GetShadowPtr | renderdoc/driver/gl/gl_resources.h:205-208 | returns slot p, which is NULL exactly when no shadow storage is held |
| GLRecords.ShadowStorageLifecycle | renderdoc/driver/gl/gl_resources.h:186-203 | allocating twice and freeing twice leaves the allocator with exactly the blocks it had before |
| AlignedAlloc.AlignedHeap.AllocAlignedBuffer | renderdoc/driver/gl/gl_resources.h:190-191 | each allocation returns a fresh non-NULL block and adds only that block |
| AlignedAlloc.AlignedHeap.FreeAlignedBuffer | renderdoc/driver/gl/gl_resources.h:199-200 | freeing releases exactly the given live block |

## Left out

- The format and target utilities (`GetByteSize`, `GetBaseFormat`, `IsCompressedFormat` and the rest, lines 34-53) are only declared in the header, and several call into the driver. `TextureBinding` is the one the model needs, and it becomes a function parameter.
- `TrackedResource::GetNewUniqueID` and `SetReplayResourceIDs` are only declared. The replay ID allocator is therefore not part of this model.
- The base `ResourceRecord` (`core/resource_manager.h`) is not part of this model. The record keeps only the id it passes to the base.
- The serialiser's `AllocAlignedBuffer` / `FreeAlignedBuffer` are replaced by `AlignedAlloc.AlignedHeap`. Allocation always succeeds, and alignment is recorded rather than honoured in the address. The header has no out-of-memory fallback.
- Map/unmap status transitions and the shadow-buffer diffing are not implemented in this header. Only the `Map` fields and their zeroed initial state are modelled.
- GLRecords.GLResourceRecord.VerifyDataType: the release build, where the method does nothing, is not modelled. The `RDCASSERT` of the other build becomes the precondition `DataTypeAccepts`, so a mismatching target is excluded rather than reported.
- Raw pointer values are unbounded naturals. The model does not fix their width.
- The helpers do not follow a null-sentinel convention for names 0 and ~0U, which would map them to the null identity: `TextureRes(ctx, 0)` is an ordinary texture identity. The model follows the header, and `HelpersKeepNameAndNamespace` shows that no helper yields a null resource.
