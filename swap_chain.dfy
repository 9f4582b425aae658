/** `SwapChain`: two textures made from one descriptor and a flag saying
 *  which of them is current. Post-processing passes read the current
 *  texture and write the other, swapping first. */
module SwapChains {
  import TextureUtil

  /** A texture of the chain: its label (`name`) and its descriptor. */
  datatype SwapTexture = SwapTexture(name: string, desc: TextureUtil.TextureDescriptor)

  /** A default view of a chain texture. */
  datatype View = View(texture: SwapTexture)

  const LABEL_A: string := "swap_chain_texture_a"
  const LABEL_B: string := "swap_chain_texture_b"

  /** `PostProcess`: the view a pass reads and the view it writes. */
  datatype PostProcess = PostProcess(src: View, dst: View)

  class SwapChain {
    var mainTexture: bool
    var textureA: SwapTexture
    var textureB: SwapTexture
    var desc: TextureUtil.TextureDescriptor

    ghost predicate Valid() reads this {
      textureA == SwapTexture(LABEL_A, desc) && textureB == SwapTexture(LABEL_B, desc)
    }

    /** `new`: both textures from the descriptor, B current. */
    constructor (desc: TextureUtil.TextureDescriptor)
      ensures Valid() && this.desc == desc && !mainTexture
      ensures CurrentTexture() == SwapTexture(LABEL_B, desc) && AnotherTexture() == SwapTexture(LABEL_A, desc)
    {
      mainTexture := false;
      textureA := SwapTexture(LABEL_A, desc);
      textureB := SwapTexture(LABEL_B, desc);
      this.desc := desc;
    }

    /** `clear`: the chain rebuilt from its own descriptor, flag reset. */
    method Clear()
      requires Valid()
      modifies this
      ensures Valid() && desc == old(desc) && !mainTexture
      ensures textureA == old(textureA) && textureB == old(textureB)
    {
      mainTexture := false;
      textureA := SwapTexture(LABEL_A, desc);
      textureB := SwapTexture(LABEL_B, desc);
    }

    /** `swap`: flips which texture is current, so two swaps restore the
     *  chain. */
    method Swap()
      modifies this
      ensures mainTexture == !old(mainTexture)
      ensures textureA == old(textureA) && textureB == old(textureB) && desc == old(desc)
      ensures CurrentTexture() == old(AnotherTexture()) && AnotherTexture() == old(CurrentTexture())
    {
      mainTexture := !mainTexture;
    }

    /** `current_texture`: A while the flag is set, else B. */
    function CurrentTexture(): (t: SwapTexture)
      reads this
      ensures t == (if mainTexture then textureA else textureB)
      ensures Valid() ==> t != AnotherTexture()
    {
      if mainTexture then textureA else textureB
    }

    /** `another_texture`: the texture that is not current. */
    function AnotherTexture(): (t: SwapTexture)
      reads this
      ensures t == (if mainTexture then textureB else textureA)
    {
      if !mainTexture then textureA else textureB
    }

    function CurrentView(): (v: View)
      reads this
      ensures v.texture == CurrentTexture()
      ensures Valid() ==> v != AnotherView()
    {
      View(CurrentTexture())
    }

    function AnotherView(): (v: View)
      reads this
      ensures v.texture == AnotherTexture()
    {
      View(AnotherTexture())
    }

    /** `start_post_process`: swaps, then reads from the texture that was
     *  current and writes to the one that was not. */
    method StartPostProcess() returns (p: PostProcess)
      requires Valid()
      modifies this
      ensures Valid() && mainTexture == !old(mainTexture)
      ensures p.src == old(CurrentView()) && p.dst == old(AnotherView())
      ensures p.src != p.dst
    {
      Swap();
      p := PostProcess(AnotherView(), CurrentView());
    }
  }
}
