/** The admin's product editor (AnticcaReale-main/src/components/admin/AdminProductModal.tsx):
    the form it keeps, the image and 3D-model uploads, and what it submits. */
module AdminProduct {
  import opened Types
  import opened Text

  /** The editor's form. Amounts are whole lira; the two auction times are the text of the
      date-time inputs. */
  datatype FormData = FormData(
    shopId: string,
    name: string,
    description: string,
    price: int,
    category: Category,
    images: seq<string>,
    model3dUrl: string,
    stock: int,
    isActive: bool,
    saleType: SaleType,
    auctionStartTime: string,
    auctionEndTime: string,
    startingBid: int,
    buyNowPrice: int,
    minimumBidIncrement: int)

  /** The form of a new product: the first shop preselected, one unit in stock, an
      increment of 100. */
  function NewProductForm(shopIds: seq<string>, initialSaleType: SaleType): (f: FormData)
    ensures f.shopId == "" <==> shopIds == [] || shopIds[0] == ""
    ensures f.images == [] && f.price == 0 && f.stock == 1 && f.minimumBidIncrement == 100
    ensures f.saleType == initialSaleType
  {
    FormData(if shopIds != [] then shopIds[0] else "", "", "", 0, Mobilya, [], "", 1, true,
             initialSaleType, "", "", 0, 0, 100)
  }

  /** The form of an existing product; `startText` and `endText` are its auction times as
      the date-time inputs show them, and an absent increment becomes 100. */
  function ProductForm(p: Product, model3dUrl: string, startText: string, endText: string): (f: FormData)
    ensures f.shopId == p.shopId && f.price == p.price && f.images == p.images && f.stock == p.stock
    ensures f.saleType == p.saleType && f.startingBid == p.startingBid && f.buyNowPrice == p.buyNowPrice
    ensures f.minimumBidIncrement == (if p.minimumBidIncrement == 0 then 100 else p.minimumBidIncrement)
  {
    FormData(p.shopId, p.name, p.description, p.price, p.category, p.images, model3dUrl, p.stock,
             p.isActive, p.saleType, startText, endText, p.startingBid, p.buyNowPrice,
             if p.minimumBidIncrement != 0 then p.minimumBidIncrement else 100)
  }

  /** A number field's value: the parsed number, or 0 when the text is not a number. */
  function NumberOrZero(parsed: Option<int>): int
  {
    if parsed.Some? then parsed.value else 0
  }

  /** The starting-bid field: it sets the starting bid and the price together. */
  function EditStartingBid(f: FormData, parsed: Option<int>): FormData
  {
    f.(startingBid := NumberOrZero(parsed), price := NumberOrZero(parsed))
  }

  // ---------------------------------------------------------------- the submitted record

  /** An auction time as submitted: the input's text, or the instant it denotes. */
  datatype SubmitTime = AsEntered(text: string) | AsInstant(ms: int)

  /** `submitData`: the form, with the auction fields normalised. */
  datatype SubmitData = SubmitData(form: FormData, auctionStartTime: SubmitTime, auctionEndTime: SubmitTime)

  /** The time field of an auction: a filled-in input becomes the instant it denotes, which
      the browser's local-time parsing (a parameter) gives. */
  function AuctionTime(text: string, saleType: SaleType, instant: int): SubmitTime
  {
    if saleType == Auction && text != "" then AsInstant(instant) else AsEntered(text)
  }

  function ToSubmitData(f: FormData, startInstant: int, endInstant: int): SubmitData
  {
    SubmitData(
      if f.saleType == Auction && f.price == 0 then f.(price := f.startingBid) else f,
      AuctionTime(f.auctionStartTime, f.saleType, startInstant),
      AuctionTime(f.auctionEndTime, f.saleType, endInstant))
  }

  /** A fixed sale submits the form as it stands. An auction differs from the form at most
      in its price, which falls back to the starting bid when it is zero, and in its filled-in
      times, which become instants. */
  lemma ToSubmitDataContract(f: FormData, startInstant: int, endInstant: int)
    ensures f.saleType == Fixed ==>
      ToSubmitData(f, startInstant, endInstant) ==
      SubmitData(f, AsEntered(f.auctionStartTime), AsEntered(f.auctionEndTime))
    ensures ToSubmitData(f, startInstant, endInstant).form.(price := f.price) == f
    ensures f.saleType == Auction ==>
      ToSubmitData(f, startInstant, endInstant).form.price == (if f.price != 0 then f.price else f.startingBid)
    ensures f.saleType == Auction && f.auctionStartTime != "" ==>
      ToSubmitData(f, startInstant, endInstant).auctionStartTime == AsInstant(startInstant)
    ensures f.saleType == Auction && f.auctionEndTime != "" ==>
      ToSubmitData(f, startInstant, endInstant).auctionEndTime == AsInstant(endInstant)
  {
  }

  /** After the starting-bid field is edited, an auction is submitted with its price equal to
      its starting bid. */
  lemma StartingBidSetsAuctionPrice(f: FormData, parsed: Option<int>, startInstant: int, endInstant: int)
    requires f.saleType == Auction
    ensures ToSubmitData(EditStartingBid(f, parsed), startInstant, endInstant).form.price ==
            ToSubmitData(EditStartingBid(f, parsed), startInstant, endInstant).form.startingBid
    ensures ToSubmitData(EditStartingBid(f, parsed), startInstant, endInstant).form.startingBid == NumberOrZero(parsed)
  {
  }

  // ---------------------------------------------------------------- image list

  /** `images.filter((_, i) => i !== index)`, walking the list with the index counting down. */
  function WithoutIndex(images: seq<string>, index: int): (r: seq<string>)
    ensures |r| <= |images|
  {
    if images == [] then []
    else (if index == 0 then [] else [images[0]]) + WithoutIndex(images[1..], index - 1)
  }

  /** Removing image `index` drops exactly that image and keeps the others in order; an
      index outside the list changes nothing. */
  lemma {:induction false} WithoutIndexSplices(images: seq<string>, index: int)
    ensures 0 <= index < |images| ==> WithoutIndex(images, index) == images[..index] + images[index + 1..]
    ensures !(0 <= index < |images|) ==> WithoutIndex(images, index) == images
  {
    if images != [] {
      WithoutIndexSplices(images[1..], index - 1);
      if 0 < index < |images| {
        assert images[1..][..index - 1] + images[1..][index..] == images[1..index] + images[index + 1..];
        assert [images[0]] + images[1..index] == images[..index];
      } else if !(0 <= index < |images|) {
        assert [images[0]] + images[1..] == images;
      }
    }
  }

  /** The download URLs of a batch of uploads that all succeeded, in file order; each upload's
      result is its URL, or `None` when it threw. */
  function UploadedUrls(results: seq<Option<string>>): (urls: seq<string>)
    requires forall i :: 0 <= i < |results| ==> results[i].Some?
    ensures |urls| == |results|
    ensures forall i :: 0 <= i < |urls| ==> urls[i] == results[i].value
  {
    if results == [] then [] else [results[0].value] + UploadedUrls(results[1..])
  }

  lemma UploadedUrlsAppend(results: seq<Option<string>>, next: Option<string>)
    requires forall i :: 0 <= i < |results| ==> results[i].Some?
    requires next.Some?
    ensures UploadedUrls(results + [next]) == UploadedUrls(results) + [next.value]
  {
  }

  // ---------------------------------------------------------------- 3D model file name

  function EndsWith(s: string, suffix: string): bool
  {
    |suffix| <= |s| && s[|s| - |suffix|..] == suffix
  }

  /** The 3D model check: the lowercased file name ends with `.glb`. */
  predicate IsGlbName(fileName: string)
  {
    EndsWith(Lower(fileName), ".glb")
  }

  /** The check accepts a name exactly when its last four characters are a dot and the
      letters g, l, b in either case. */
  lemma GlbNameCases(fileName: string)
    ensures IsGlbName(fileName) <==>
      |fileName| >= 4
      && fileName[|fileName| - 4] == '.'
      && fileName[|fileName| - 3] in {'g', 'G'}
      && fileName[|fileName| - 2] in {'l', 'L'}
      && fileName[|fileName| - 1] in {'b', 'B'}
  {
    var low := Lower(fileName);
    var n := |fileName|;
    if n >= 4 {
      assert low[n - 4..] == [low[n - 4], low[n - 3], low[n - 2], low[n - 1]];
      assert ".glb" == ['.', 'g', 'l', 'b'];
    }
  }

  // ---------------------------------------------------------------- the editor

  /** A write the editor makes to the products collection. */
  datatype SaveCall = UpdateProduct(productId: string, data: SubmitData) | CreateProduct(data: SubmitData)

  const PICK_SHOP_ALERT := "Lütfen bir dükkan seçin."
  const SAVE_ERROR_ALERT := "Kaydetme hatası oluştu."
  const UPLOAD_ERROR_ALERT := "Görsel yüklenirken hata oluştu."
  const GLB_ONLY_ALERT := "Lütfen sadece .glb formatında 3D model yükleyin."
  const MODEL_UPLOAD_ERROR_ALERT := "3D model yüklenirken hata oluştu."

  class ProductModal {
    var formData: FormData
    var saving: bool
    var uploading: bool
    var saves: seq<SaveCall>
    var alerts: seq<string>
    var closed: bool

    constructor (initial: FormData)
      ensures formData == initial && !saving && !uploading && saves == [] && alerts == [] && !closed
    {
      formData := initial;
      saving := false;
      uploading := false;
      saves := [];
      alerts := [];
      closed := false;
    }

    /** `handleSubmit`. The times' instants and the write's success are parameters. */
    method HandleSubmit(product: Option<Product>, startInstant: int, endInstant: int, saveSucceeds: bool)
      modifies this
      ensures formData == old(formData) && uploading == old(uploading)
      ensures old(formData).shopId == "" ==>
        saves == old(saves) && alerts == old(alerts) + [PICK_SHOP_ALERT] && closed == old(closed) && saving == old(saving)
      ensures old(formData).shopId != "" ==> !saving
      ensures old(formData).shopId != "" ==>
        saves == old(saves) + [
          if product.Some? then UpdateProduct(product.value.id, ToSubmitData(old(formData), startInstant, endInstant))
          else CreateProduct(ToSubmitData(old(formData), startInstant, endInstant))]
      ensures old(formData).shopId != "" && saveSucceeds ==> closed && alerts == old(alerts)
      ensures old(formData).shopId != "" && !saveSucceeds ==>
        closed == old(closed) && alerts == old(alerts) + [SAVE_ERROR_ALERT]
    {
      if formData.shopId == "" {
        alerts := alerts + [PICK_SHOP_ALERT];
        return;
      }
      saving := true;
      var submitData := SubmitData(formData, AsEntered(formData.auctionStartTime), AsEntered(formData.auctionEndTime));
      if formData.saleType == Auction {
        if formData.auctionStartTime != "" {
          submitData := submitData.(auctionStartTime := AsInstant(startInstant));
        }
        if formData.auctionEndTime != "" {
          submitData := submitData.(auctionEndTime := AsInstant(endInstant));
        }
        if submitData.form.price == 0 {
          submitData := submitData.(form := submitData.form.(price := submitData.form.startingBid));
        }
      }
      if product.Some? {
        saves := saves + [UpdateProduct(product.value.id, submitData)];
      } else {
        saves := saves + [CreateProduct(submitData)];
      }
      if saveSucceeds {
        closed := true;
      } else {
        alerts := alerts + [SAVE_ERROR_ALERT];
      }
      saving := false;
    }

    /** `handleImageUpload`: each file is uploaded in turn (`results[i]` is what the upload
        of file i gave); the new URLs are appended after the existing images only when every
        upload succeeded. */
    method HandleImageUpload(results: seq<Option<string>>)
      modifies this
      ensures saves == old(saves) && closed == old(closed) && saving == old(saving)
      ensures results == [] ==> formData == old(formData) && alerts == old(alerts) && uploading == old(uploading)
      ensures results != [] ==> !uploading
      ensures results != [] && (forall i :: 0 <= i < |results| ==> results[i].Some?) ==>
        formData == old(formData).(images := old(formData).images + UploadedUrls(results)) && alerts == old(alerts)
      ensures (exists i :: 0 <= i < |results| && results[i].None?) ==>
        formData == old(formData) && alerts == old(alerts) + [UPLOAD_ERROR_ALERT]
    {
      if results == [] {
        return;
      }
      uploading := true;
      var urls: seq<string> := [];
      var i := 0;
      while i < |results|
        invariant 0 <= i <= |results|
        invariant forall j :: 0 <= j < i ==> results[j].Some?
        invariant urls == UploadedUrls(results[..i])
        invariant formData == old(formData) && alerts == old(alerts)
        invariant saves == old(saves) && closed == old(closed) && saving == old(saving)
      {
        if results[i].None? {
          alerts := alerts + [UPLOAD_ERROR_ALERT];
          uploading := false;
          return;
        }
        UploadedUrlsAppend(results[..i], results[i]);
        assert results[..i + 1] == results[..i] + [results[i]];
        urls := urls + [results[i].value];
        i := i + 1;
      }
      assert results[..i] == results;
      formData := formData.(images := formData.images + urls);
      uploading := false;
    }

    /** The remove button of image `index`. */
    method RemoveImage(index: int)
      modifies this
      ensures formData == old(formData).(images := WithoutIndex(old(formData).images, index))
      ensures 0 <= index < |old(formData).images| ==>
        formData.images == old(formData).images[..index] + old(formData).images[index + 1..]
      ensures saves == old(saves) && alerts == old(alerts) && closed == old(closed)
      ensures saving == old(saving) && uploading == old(uploading)
    {
      WithoutIndexSplices(formData.images, index);
      formData := formData.(images := WithoutIndex(formData.images, index));
    }

    /** `handle3DModelUpload`: `fileName` is the chosen file, if any, and `uploaded` the
        download URL, `None` when the upload threw. */
    method Handle3DModelUpload(fileName: Option<string>, uploaded: Option<string>)
      modifies this
      ensures saves == old(saves) && closed == old(closed) && saving == old(saving)
      ensures fileName.None? ==> formData == old(formData) && alerts == old(alerts) && uploading == old(uploading)
      ensures fileName.Some? && !IsGlbName(fileName.value) ==>
        formData == old(formData) && alerts == old(alerts) + [GLB_ONLY_ALERT] && uploading == old(uploading)
      ensures fileName.Some? && IsGlbName(fileName.value) && uploaded.Some? ==>
        formData == old(formData).(model3dUrl := uploaded.value) && alerts == old(alerts) && !uploading
      ensures fileName.Some? && IsGlbName(fileName.value) && uploaded.None? ==>
        formData == old(formData) && alerts == old(alerts) + [MODEL_UPLOAD_ERROR_ALERT] && !uploading
    {
      if fileName.None? {
        return;
      }
      if !IsGlbName(fileName.value) {
        alerts := alerts + [GLB_ONLY_ALERT];
        return;
      }
      uploading := true;
      if uploaded.Some? {
        formData := formData.(model3dUrl := uploaded.value);
      } else {
        alerts := alerts + [MODEL_UPLOAD_ERROR_ALERT];
      }
      uploading := false;
    }

    /** The starting-bid field of an auction. */
    method ChangeStartingBid(parsed: Option<int>)
      modifies this
      ensures formData == EditStartingBid(old(formData), parsed)
      ensures formData.price == formData.startingBid
      ensures saves == old(saves) && alerts == old(alerts) && closed == old(closed)
      ensures saving == old(saving) && uploading == old(uploading)
    {
      formData := EditStartingBid(formData, parsed);
    }
  }
}
