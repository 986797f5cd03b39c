/**
 * The Proxy pattern: an image proxy that creates the real image on the first
 * `display` and reuses it afterwards. Loading from disk and drawing are not
 * modelled; the real image only counts how often it is displayed.
 */
module ImageProxy {

  const FirstLoad := "(Proxy) First time loading image..."
  const FromCache := "(Proxy) Loading from cache..."

  /** The expensive image, loaded once per object for its file name. */
  class RealImage {
    const filename: string
    var displayCount: nat

    constructor (filename: string)
      ensures this.filename == filename && displayCount == 0
    {
      this.filename := filename;
      displayCount := 0;
    }

    method Display()
      modifies this
      ensures displayCount == old(displayCount) + 1
    {
      displayCount := displayCount + 1;
    }
  }

  class ProxyImage {
    const filename: string
    var realImage: RealImage?
    /** How many real images this proxy has created. */
    ghost var loads: nat

    /** A real image exists exactly when one load has happened, and it is for this proxy's file. */
    ghost predicate Valid()
      reads this, realImage
    {
      (realImage == null <==> loads == 0) && loads <= 1
      && (realImage != null ==> realImage.filename == filename)
    }

    constructor (filename: string)
      ensures Valid()
      ensures this.filename == filename && realImage == null && loads == 0
    {
      this.filename := filename;
      realImage := null;
      loads := 0;
    }

    /**
     * `display()`: on the first call creates the real image and reports a first
     * load; afterwards reuses it and reports a cache hit. Either way the real
     * image is displayed once more, and the cache is never emptied.
     */
    method Display() returns (message: string)
      requires Valid()
      modifies this, realImage
      ensures Valid() && realImage != null && loads == 1
      ensures old(realImage) == null ==>
                fresh(realImage) && realImage.displayCount == 1 && message == FirstLoad
      ensures old(realImage) != null ==>
                realImage == old(realImage) && message == FromCache
                && realImage.displayCount == old(realImage.displayCount) + 1
    {
      if realImage == null {
        message := FirstLoad;
        realImage := new RealImage(filename);
        loads := loads + 1;
      } else {
        message := FromCache;
      }
      realImage.Display();
    }
  }

  /** Displaying a new proxy n >= 1 times loads the image once and displays it n times. */
  method DisplayRepeatedly(proxy: ProxyImage, n: nat) returns (image: RealImage)
    requires proxy.Valid() && proxy.realImage == null && n >= 1
    modifies proxy
    ensures proxy.Valid() && proxy.loads == 1 && proxy.realImage == image
    ensures fresh(image) && image.displayCount == n
  {
    var message := proxy.Display();
    image := proxy.realImage;
    var i := 1;
    while i < n
      invariant 1 <= i <= n
      invariant proxy.Valid() && proxy.loads == 1 && proxy.realImage == image
      invariant fresh(image) && image.displayCount == i
    {
      message := proxy.Display();
      i := i + 1;
    }
  }

  /** The demo script: the first display loads, the second is served from the cache. */
  method ProxyScenario() returns (first: string, second: string, displays: nat)
    ensures first == FirstLoad && second == FromCache && displays == 2
  {
    var image := new ProxyImage("high_resolution_photo.jpg");
    first := image.Display();
    second := image.Display();
    displays := image.realImage.displayCount;
  }
}
