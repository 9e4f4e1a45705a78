# short_vec: lane layout and data movement, in Dafny

A model of two backends of LibFlatArray's packed-vector type `short_vec`:

- `short_vec<double, 4>` on SSE (`SseDouble4.ShortVec4`). It holds four double lanes in two
  128-bit registers `val1` and `val2`. Logical lane `i` sits in register `i / 2`, at slot `i % 2`.
- `short_vec<double, 2>`, the fallback used without SSE (`ScalarDouble2.ShortVec2`). It holds two
  plain double fields.

The model covers what does not depend on floating-point arithmetic:
- where each lane is kept;
- how loads, stores, gathers and scatters move lanes between vectors and a caller's buffer, and
  which elements they leave alone;
- how `blend` and `any()` act on the bits of a mask;
- that every operator works lane by lane.

Modules:

- `Elements`: a lane is the 64-bit pattern of a double (`bv64`).
  - The IEEE-754 operations `+ - * /`, `sqrt` and the five ordered comparisons are the fields of an
    `Fpu` record, which every operator takes as a parameter. So each result holds for any
    floating-point unit.
  - A comparison lane is all-ones or all-zeros (`MaskOf`), as the `cmp*pd` instructions define it.
    That a comparison yields a well-formed mask is therefore proved, not assumed.
  - The module also holds the lane-wise liftings (`Zip`, `Map1`, `Compare`, `Select`, `Choose`),
    the two selections used by `blend` (bitwise and by sign bit), and the conversion of a double
    to `bool`. That conversion is false exactly for +0.0 and -0.0.
- `Sse`: the SSE2 and SSE4.1 intrinsics the four-lane vector uses, on a two-slot register `M128d`.
  Memory is an `array` of lanes, and a C++ `double *` is an array together with an element index.
- `Memory`: what stores, gathers and scatters do to a buffer, stated on its contents. A scatter
  writes lane 0 first, so the last writer wins.
- `SseDouble4`: the class `ShortVec4`, its free functions, and the lemmas relating its operations.
- `ScalarDouble2`: the class `ShortVec2`, the `/=` defect, and the lemmas relating its operations.

Operators that return a new vector are methods returning a fresh object. In-place operators,
loads, gathers and `blend` modify the receiver. Stores and scatters modify the caller's array.
Every one is specified by the lane-wise functions of `Elements` and `Memory`.

## Model

| member | source | states |
|---|---|---|
| `Elements.DoubleToBoolIsNonZero` | include/libflatarray/detail/short_vec_sse_double_4.hpp:86-87 | a double converts to `true` exactly when its pattern is neither +0.0 nor -0.0 |
| `Elements.SelectOnMaskLane` | include/libflatarray/detail/short_vec_sse_double_4.hpp:275-289 | on an all-ones or all-zeros mask lane, both the bitwise and the sign-bit selection pick `other` for all-ones and `self` for all-zeros |
| `Elements.SelectsDisagreeOnSignOnlyMask` | include/libflatarray/detail/short_vec_sse_double_4.hpp:275-289 | off masks the two selections differ: a mask lane holding only the sign bit makes the bitwise selection mix bits and the `blendv` selection take `other` |
| `Elements.CompareIsMask` | include/libflatarray/detail/short_vec_sse_double_4.hpp:171-209 | a comparison vector is a well-formed mask, all-ones in exactly the lanes where the comparison holds |
| `Elements.SelectsAgreeOnMask` | include/libflatarray/detail/short_vec_sse_double_4.hpp:281-287 | on a well-formed mask both selections equal the intended per-lane choice of `other` or `self` |
| `Elements.BlendByComparison` | include/libflatarray/detail/short_vec_sse_double_4.hpp:278-280 | blending by a comparison result takes `other` in lane `i` exactly when the comparison holds there, on either blend path |
| `Sse.BitwiseBlendIsBitSelect` | include/libflatarray/detail/short_vec_sse_double_4.hpp:282-287 | `or(and(mask, other), andnot(mask, self))` is the per-slot bit selection |
| `Elements.DoubleToBool` | include/libflatarray/detail/short_vec_sse_double_4.hpp:87 | defines C++'s conversion of a double to `bool`: false exactly when every bit outside the sign bit is clear |
| `Sse.Set1Pd` | include/libflatarray/detail/short_vec_sse_double_4.hpp:51-52 | defines `_mm_set1_pd`: both slots hold the scalar |
| `Sse.CvtsdF64` | include/libflatarray/detail/short_vec_sse_double_4.hpp:104 | defines `_mm_cvtsd_f64`: the low slot |
| `Sse.ShufflePd` | include/libflatarray/detail/short_vec_sse_double_4.hpp:107 | defines `_mm_shuffle_pd`: bit 0 of the immediate picks the slot of the first operand for the low result, bit 1 that of the second for the high result, so immediate 1 swaps a register's slots |
| `Sse.MapPd` | include/libflatarray/detail/short_vec_sse_double_4.hpp:114-115 | defines the packed two-operand instructions (`_mm_add_pd`, `_mm_sub_pd`, `_mm_mul_pd`, `_mm_div_pd`): the element operation in each slot |
| `Sse.MapPd1` | include/libflatarray/detail/short_vec_sse_double_4.hpp:215-216 | defines `_mm_sqrt_pd`: the element square root in each slot |
| `Sse.CmpPd` | include/libflatarray/detail/short_vec_sse_double_4.hpp:175-176 | defines the packed comparisons: all-ones in a slot where the predicate holds, all-zeros elsewhere |
| `Sse.OrPd` | include/libflatarray/detail/short_vec_sse_double_4.hpp:79 | defines `_mm_or_pd`: bitwise or in each slot |
| `Sse.AndPd` | include/libflatarray/detail/short_vec_sse_double_4.hpp:283 | defines `_mm_and_pd`: bitwise and in each slot |
| `Sse.AndnotPd` | include/libflatarray/detail/short_vec_sse_double_4.hpp:284 | defines `_mm_andnot_pd(a, b)`: the complement of `a`, and `b`, in each slot |
| `Sse.BlendvPd` | include/libflatarray/detail/short_vec_sse_double_4.hpp:279-280 | defines `_mm_blendv_pd(a, b, mask)`: per slot `b` when the mask slot's sign bit is set, else `a` |
| `Sse.TestzSi128` | include/libflatarray/detail/short_vec_sse_double_4.hpp:82-84 | defines `_mm_testz_si128(a, b)`: 1 when `a & b` is zero in all 128 bits, else 0 |
| `Sse.LoadPd` | include/libflatarray/detail/short_vec_sse_double_4.hpp:222-223 | defines `_mm_loadu_pd` and `_mm_load_pd`: two consecutive elements into the low and high slot |
| `Sse.LoadlPd` | include/libflatarray/detail/short_vec_sse_double_4.hpp:260 | defines `_mm_loadl_pd`: the low slot from memory, the high slot kept |
| `Sse.LoadhPd` | include/libflatarray/detail/short_vec_sse_double_4.hpp:261 | defines `_mm_loadh_pd`: the high slot from memory, the low slot kept |
| `Sse.StorePd` | include/libflatarray/detail/short_vec_sse_double_4.hpp:237-238 | `_mm_storeu_pd`, `_mm_store_pd` and `_mm_stream_pd` write the low slot to element `p`, the high slot to `p + 1`, and nothing else |
| `Sse.StorelPd` | include/libflatarray/detail/short_vec_sse_double_4.hpp:269 | `_mm_storel_pd` writes the low slot to element `p` and nothing else |
| `Sse.StorehPd` | include/libflatarray/detail/short_vec_sse_double_4.hpp:270 | `_mm_storeh_pd` writes the high slot to element `p` and nothing else |
| `Memory.Gather` | include/libflatarray/detail/short_vec_sse_double_4.hpp:257-264 | defines an indexed load: lane `k` is element `at + offs[k]` |
| `Memory.Scatter` | include/libflatarray/detail/short_vec_sse_double_4.hpp:266-273 | defines an indexed store: lanes written to `at + offs[k]` in order 0, 1, ..., so a later lane overwrites an earlier one at a shared target |
| `Memory.Splice` | include/libflatarray/detail/short_vec_sse_double_4.hpp:234-239 | a contiguous store puts the written lanes at `at..at+n` and keeps every other element |
| `Memory.ScatterFromAt` | include/libflatarray/detail/short_vec_sse_double_4.hpp:269-272 | after the writes of lanes `k` onwards, an element none of them aims at is unchanged and an aimed-at element holds the highest-index lane aiming at it |
| `Memory.ScatterAt` | include/libflatarray/detail/short_vec_sse_double_4.hpp:266-273 | after an indexed store, an element no lane aims at is unchanged, and an aimed-at element holds the highest-index lane aiming at it |
| `Memory.GatherAfterScatter` | include/libflatarray/detail/short_vec_sse_double_4.hpp:257-273 | with pairwise-distinct offsets, gathering what was scattered gives back every lane |
| `SseDouble4.LaneLayout` | include/libflatarray/detail/short_vec_sse_double_4.hpp:292-293 | logical lane `i` is register `i / 2` at slot `i % 2` |
| `SseDouble4.MapPdIsLanewise` | include/libflatarray/detail/short_vec_sse_double_4.hpp:111-169 | a packed operation applied to both registers is the element operation on every logical lane |
| `SseDouble4.CmpPdIsLanewise` | include/libflatarray/detail/short_vec_sse_double_4.hpp:171-209 | a packed comparison on both registers is the lane-wise comparison mask of the logical lanes |
| `SseDouble4.SelectPdIsLanewise` | include/libflatarray/detail/short_vec_sse_double_4.hpp:275-289 | a per-slot selection on both registers is the same selection on every logical lane |
| `SseDouble4.ShortVec4.constructor` | include/libflatarray/detail/short_vec_sse_double_4.hpp:49-53 | broadcast puts the scalar in all four lanes |
| `SseDouble4.ShortVec4.FromPointer` | include/libflatarray/detail/short_vec_sse_double_4.hpp:55-59 | the pointer constructor is `load`: lanes are `data[at..at+4]` |
| `SseDouble4.ShortVec4.FromRegisters` | include/libflatarray/detail/short_vec_sse_double_4.hpp:61-65 | the registers are taken as given |
| `SseDouble4.ShortVec4.FromList` | include/libflatarray/detail/short_vec_sse_double_4.hpp:68-73 | the list constructor loads the first four elements |
| `SseDouble4.ShortVec4.AnySse41` | include/libflatarray/detail/short_vec_sse_double_4.hpp:79-84 | with SSE4.1, `any()` is true exactly when some lane has a bit set |
| `SseDouble4.ShortVec4.AnySse2` | include/libflatarray/detail/short_vec_sse_double_4.hpp:85-88 | without SSE4.1, `any()` is true when lanes 0 and 2 or-ed together, or lanes 1 and 3 or-ed together, convert to `true` as a double |
| `SseDouble4.ShortVec4.Get` | include/libflatarray/detail/short_vec_sse_double_4.hpp:91-109 | `get(i)` is logical lane `i` for `0 <= i < 4`; a negative `i` reads `val1` and one of 4 or more reads `val2`, at slot `i & 1` |
| `SseDouble4.ShortVec4.SubAssign` | include/libflatarray/detail/short_vec_sse_double_4.hpp:111-116 | `-=` leaves the lane-wise difference of the old receiver and `other` |
| `SseDouble4.ShortVec4.Sub` | include/libflatarray/detail/short_vec_sse_double_4.hpp:118-124 | `-` returns a fresh vector of lane-wise differences |
| `SseDouble4.ShortVec4.AddAssign` | include/libflatarray/detail/short_vec_sse_double_4.hpp:126-131 | `+=` leaves the lane-wise sum |
| `SseDouble4.ShortVec4.Add` | include/libflatarray/detail/short_vec_sse_double_4.hpp:133-139 | `+` returns lane-wise sums |
| `SseDouble4.ShortVec4.MulAssign` | include/libflatarray/detail/short_vec_sse_double_4.hpp:141-146 | `*=` leaves the lane-wise product |
| `SseDouble4.ShortVec4.Mul` | include/libflatarray/detail/short_vec_sse_double_4.hpp:148-154 | `*` returns lane-wise products |
| `SseDouble4.ShortVec4.DivAssign` | include/libflatarray/detail/short_vec_sse_double_4.hpp:156-161 | `/=` leaves the lane-wise quotient |
| `SseDouble4.ShortVec4.Div` | include/libflatarray/detail/short_vec_sse_double_4.hpp:163-169 | `/` returns lane-wise quotients |
| `SseDouble4.ShortVec4.Less` | include/libflatarray/detail/short_vec_sse_double_4.hpp:171-177 | `<` returns the lane-wise mask of `lt` |
| `SseDouble4.ShortVec4.LessEqual` | include/libflatarray/detail/short_vec_sse_double_4.hpp:179-185 | `<=` returns the lane-wise mask of `le` |
| `SseDouble4.ShortVec4.Equal` | include/libflatarray/detail/short_vec_sse_double_4.hpp:187-193 | `==` returns the lane-wise mask of `eq` |
| `SseDouble4.ShortVec4.Greater` | include/libflatarray/detail/short_vec_sse_double_4.hpp:195-201 | `>` returns the lane-wise mask of `gt` |
| `SseDouble4.ShortVec4.GreaterEqual` | include/libflatarray/detail/short_vec_sse_double_4.hpp:203-209 | `>=` returns the lane-wise mask of `ge` |
| `SseDouble4.ShortVec4.Sqrt` | include/libflatarray/detail/short_vec_sse_double_4.hpp:211-217 | `sqrt()` returns the lane-wise square roots |
| `SseDouble4.ShortVec4.Load` | include/libflatarray/detail/short_vec_sse_double_4.hpp:219-224 | `load` sets lane `i` to `data[at + i]` |
| `SseDouble4.ShortVec4.LoadAligned` | include/libflatarray/detail/short_vec_sse_double_4.hpp:226-232 | `load_aligned` demands a 16-byte aligned pointer and loads what `load` loads |
| `SseDouble4.ShortVec4.Store` | include/libflatarray/detail/short_vec_sse_double_4.hpp:234-239 | `store` writes lane `i` to `data[at + i]` and nothing else |
| `SseDouble4.ShortVec4.StoreAligned` | include/libflatarray/detail/short_vec_sse_double_4.hpp:241-247 | `store_aligned` demands a 16-byte aligned pointer and writes what `store` writes |
| `SseDouble4.ShortVec4.StoreNt` | include/libflatarray/detail/short_vec_sse_double_4.hpp:249-255 | `store_nt` demands a 16-byte aligned pointer and writes what `store` writes |
| `SseDouble4.ShortVec4.Gather` | include/libflatarray/detail/short_vec_sse_double_4.hpp:257-264 | `gather` sets lane `k` to `ptr[at + offsets[k]]` |
| `SseDouble4.ShortVec4.Scatter` | include/libflatarray/detail/short_vec_sse_double_4.hpp:266-273 | `scatter` is the indexed store of the four lanes in order 0 to 3 |
| `SseDouble4.ShortVec4.BlendSse41` | include/libflatarray/detail/short_vec_sse_double_4.hpp:278-280 | the SSE4.1 `blend` takes `other`'s lane exactly where the mask lane's sign bit is set |
| `SseDouble4.ShortVec4.BlendSse2` | include/libflatarray/detail/short_vec_sse_double_4.hpp:281-288 | the SSE2 `blend` is the bitwise selection, the bits of `other` under the mask's ones and those of the receiver elsewhere, in every lane |
| `SseDouble4.ScatterUnrolled` | include/libflatarray/detail/short_vec_sse_double_4.hpp:269-272 | the four single-slot stores in order are the indexed store of all four lanes |
| `SseDouble4.StoreTo` | include/libflatarray/detail/short_vec_sse_double_4.hpp:300-304 | `data << vec` writes exactly what `store` writes |
| `SseDouble4.SqrtOf` | include/libflatarray/detail/short_vec_sse_double_4.hpp:306-310 | the free `sqrt` is the member `sqrt` |
| `SseDouble4.JoinFour` | include/libflatarray/detail/short_vec_sse_double_4.hpp:319 | joining four strings yields them in order separated by ", " |
| `SseDouble4.Format` | include/libflatarray/detail/short_vec_sse_double_4.hpp:312-321 | the formatter prints lanes 0, 1, 2, 3 in that order, as `[a, b, c, d]` |
| `SseDouble4.StoreThenLoad` | include/libflatarray/detail/short_vec_sse_double_4.hpp:219-239 | `store` then `load` at the same place reproduces the vector, and no element outside the four changes |
| `SseDouble4.LoadThenGet` | include/libflatarray/detail/short_vec_sse_double_4.hpp:219-224 | after `load`, `get(i)` is `data[at + i]` for every `i` in 0..3 |
| `SseDouble4.ScatterThenGather` | include/libflatarray/detail/short_vec_sse_double_4.hpp:257-273 | with distinct offsets, `scatter` then `gather` reproduces the vector |
| `SseDouble4.AssignFormsAgree` | include/libflatarray/detail/short_vec_sse_double_4.hpp:111-169 | every in-place operator leaves the receiver equal to what the value operator returns |
| `SseDouble4.BlendPathsAgree` | include/libflatarray/detail/short_vec_sse_double_4.hpp:275-289 | on a well-formed mask the SSE4.1 and SSE2 `blend` compute the same lanes, `other`'s where the mask is all-ones |
| `SseDouble4.MaskOrToBool` | include/libflatarray/detail/short_vec_sse_double_4.hpp:86-87 | two mask lanes or-ed together convert to `true` exactly when one of them is all-ones |
| `SseDouble4.AnyPathsAgree` | include/libflatarray/detail/short_vec_sse_double_4.hpp:76-89 | on a mask both `any()` paths are true exactly when some lane is all-ones |
| `SseDouble4.AnyPathsDisagreeOnNegativeZero` | include/libflatarray/detail/short_vec_sse_double_4.hpp:76-89 | off masks they can differ: a lone -0.0 lane makes the SSE4.1 path true and the SSE2 path false |
| `SseDouble4.BlendScenario` | include/libflatarray/detail/short_vec_sse_double_4.hpp:275-289 | with a = [1, 2, 3, 4] and b = [4, 3, 2, 1], `a < b` is [ones, ones, 0, 0] and blending b into a by it gives [4, 3, 3, 4] |
| `ScalarDouble2.OffsetsInBounds` | src/detail/short_vec_scalar_double_2.hpp:36-40 | a buffer with an element at `at + 4` holds both fields |
| `ScalarDouble2.StridedLayout` | src/detail/short_vec_scalar_double_2.hpp:36-40 | reading at `at` takes elements `at` and `at + 4` |
| `ScalarDouble2.StridedStore` | src/detail/short_vec_scalar_double_2.hpp:116-121 | `store` writes `val1` to element `at`, `val2` to element `at + 4`, and keeps every other element |
| `ScalarDouble2.StridedRoundTrip` | src/detail/short_vec_scalar_double_2.hpp:116-121 | reading back at the place of a store gives the stored lanes |
| `ScalarDouble2.DivAssignAgreesOnlyWhen` | src/detail/short_vec_scalar_double_2.hpp:93-98 | the written `/=` equals lane-wise division exactly when `(a0/b0)/b1 == a0/b0` and `a1/b1 == a1` |
| `ScalarDouble2.DivAssignCounterexample` | src/detail/short_vec_scalar_double_2.hpp:93-106 | `(1, 1) /= (1, 2)` leaves `(0.5, 1)` while `(1, 1) / (1, 2)` is `(1, 0.5)` |
| `ScalarDouble2.ShortVec2.constructor` | src/detail/short_vec_scalar_double_2.hpp:30-34 | broadcast sets both fields to the scalar |
| `ScalarDouble2.ShortVec2.FromPointer` | src/detail/short_vec_scalar_double_2.hpp:36-40 | the pointer constructor reads the elements at offsets 0 and 4 |
| `ScalarDouble2.ShortVec2.FromValues` | src/detail/short_vec_scalar_double_2.hpp:42-46 | the fields are taken as given |
| `ScalarDouble2.ShortVec2.SubAssign` | src/detail/short_vec_scalar_double_2.hpp:48-53 | `-=` leaves the lane-wise difference |
| `ScalarDouble2.ShortVec2.Sub` | src/detail/short_vec_scalar_double_2.hpp:55-61 | `-` returns lane-wise differences |
| `ScalarDouble2.ShortVec2.AddAssign` | src/detail/short_vec_scalar_double_2.hpp:63-68 | `+=` leaves the lane-wise sum |
| `ScalarDouble2.ShortVec2.Add` | src/detail/short_vec_scalar_double_2.hpp:70-76 | `+` returns lane-wise sums |
| `ScalarDouble2.ShortVec2.MulAssign` | src/detail/short_vec_scalar_double_2.hpp:78-83 | `*=` leaves the lane-wise product |
| `ScalarDouble2.ShortVec2.Mul` | src/detail/short_vec_scalar_double_2.hpp:85-91 | `*` returns lane-wise products |
| `ScalarDouble2.ShortVec2.DivAssign` | src/detail/short_vec_scalar_double_2.hpp:93-98 | `/=` as written: `val1` becomes `(val1 / o.val1) / o.val2` and `val2` is unchanged |
| `ScalarDouble2.ShortVec2.DivAssignLanewise` | src/detail/short_vec_scalar_double_2.hpp:93-98 | the corrected `/=` leaves the lane-wise quotient, as `/` computes it |
| `ScalarDouble2.ShortVec2.Div` | src/detail/short_vec_scalar_double_2.hpp:100-106 | `/` returns lane-wise quotients |
| `ScalarDouble2.ShortVec2.Sqrt` | src/detail/short_vec_scalar_double_2.hpp:108-114 | `sqrt()` returns the square root of each field |
| `ScalarDouble2.ShortVec2.Store` | src/detail/short_vec_scalar_double_2.hpp:116-121 | `store` is the indexed store of both fields at offsets 0 and 4 |
| `ScalarDouble2.ScatterTwo` | src/detail/short_vec_scalar_double_2.hpp:119-120 | the two writes of `store` in order are that indexed store |
| `ScalarDouble2.StoreTo` | src/detail/short_vec_scalar_double_2.hpp:128-132 | `data << vec` writes exactly what `store` writes |
| `ScalarDouble2.SqrtOf` | src/detail/short_vec_scalar_double_2.hpp:138-141 | the free `sqrt` is the member `sqrt` |
| `ScalarDouble2.StoreThenConstruct` | src/detail/short_vec_scalar_double_2.hpp:116-121 | `store` then construction from the same pointer reproduces both fields; only elements `at` and `at + 4` change |
| `ScalarDouble2.AssignFormsAgree` | src/detail/short_vec_scalar_double_2.hpp:48-91 | `-=`, `+=` and `*=` and the corrected `/=` leave the receiver equal to the value operator's result |
| `ScalarDouble2.DivFormsDisagree` | src/detail/short_vec_scalar_double_2.hpp:93-106 | on `(1, 1)` and `(1, 2)` the written `/=` leaves `(0.5, 1)` where `/` returns `(1, 0.5)` |

## Left out

- IEEE-754 arithmetic, square root and the ordered comparisons are not modelled. They are the
  parameters of an `Fpu` value. NaN behaviour and rounding are therefore not captured.
- `store_nt` is modelled by the values it writes. Its non-temporal cache hint has no observable
  effect on them.
- `SHORTVEC_ASSERT_ALIGNED` is a precondition on a ghost byte address of the buffer. What the
  macro does at run time when the pointer is misaligned is not modelled.
- Preprocessor ISA selection (`__SSE__`, `__SSE4_1__`, `LIBFLATARRAY_WITH_CPP14`) and the ICC
  pragmas are not modelled as such. Both `blend` paths and both `any()` paths are modelled as
  separate members, side by side.
- src/detail/short_vec_helpers.hpp is not part of this model. It is an inline-assembly
  `insertps` shim and a type-punning union.
- The stream formatter's printing of each number is a parameter, `show`. Only the order of the
  lanes, the brackets and the separators are modelled.
- `SseDouble4.ShortVec4.FromList` requires at least four elements. The C++ constructor reads
  four elements from `il.begin()` without checking the list's length.
- C++ pointers into a buffer are an array and an element index. Gather and scatter targets
  `at + offsets[k]` must lie inside that array. Pointer arithmetic beyond the array, and
  aliasing between the buffer and the vector object, are not modelled.
- The scalar two-lane vector reads and writes elements 0 and 4 of the buffer, as its code does.
  A contiguous reading (elements 0 and 1) would be the natural analogue of the four-lane vector;
  the model follows the code.
- In the scalar header the class is introduced with the keyword spelled `Class`
  (src/detail/short_vec_scalar_double_2.hpp:25). A C++ compiler would reject the header when
  `__SSE__` is undefined. The model describes the evidently intended class.
- In the scalar member `sqrt()` (src/detail/short_vec_scalar_double_2.hpp:111-113) the unqualified
  call `sqrt(val1)` finds the zero-argument member itself, so a compiler would reject it as well.
  `ScalarDouble2.ShortVec2.Sqrt` applies the element square root, the evident intent.

## Findings

| source | as written | input that shows it | evidently intended | confidence | as-written member | corrected member |
|---|---|---|---|---|---|---|
| src/detail/short_vec_scalar_double_2.hpp:93-98 | `/=` divides `val1` by `other.val1` and then by `other.val2`; `val2` is never assigned | `(1, 1) /= (1, 2)` leaves `(0.5, 1)`, while `(1, 1) / (1, 2)` is `(1, 0.5)` (`ScalarDouble2.DivAssignCounterexample`) | `val1 /= other.val1; val2 /= other.val2;`, matching `operator/` | not executed | `ScalarDouble2.ShortVec2.DivAssign` | `ScalarDouble2.ShortVec2.DivAssignLanewise` |
