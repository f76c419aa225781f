/**
 * The fitting of the SVG view box around the drawn chart: at least as large as
 * the container and a minimum height, the chart centred where it is smaller than
 * the container, a padding on every side, and every value rounded up to an integer.
 * The two bounding boxes the browser measures are inputs.
 */
module Chart {

  /** The smallest height of the view box before padding. */
  const MIN_HEIGHT: real := 500.0

  /** The padding added on every side of the view box. */
  const MIN_PADDING: real := 10.0

  /** The bounding box of the drawn chart, in user space. */
  datatype BoundingBox = BoundingBox(x: real, y: real, width: real, height: real)

  /** The size of the element that holds the chart, in screen pixels. */
  datatype ClientSize = ClientSize(width: real, height: real)

  /** The `viewBox` attribute: left, top, width and height. */
  datatype ViewBox = ViewBox(left: int, top: int, width: int, height: int)

  /** `Math.ceil`: the least integer not below `r`. */
  function Ceil(r: real): (c: int)
    ensures r <= c as real < r + 1.0
  {
    -((-r).Floor)
  }

  /** Rounding up keeps the order of its arguments. */
  lemma CeilMonotonic(a: real, b: real)
    requires a <= b
    ensures Ceil(a) <= Ceil(b)
  {
  }

  /** Rounding up commutes with adding an integer. */
  lemma CeilShift(a: real, n: int)
    ensures Ceil(a + n as real) == Ceil(a) + n
  {
  }

  /** `Math.max` of two numbers. */
  function Max(a: real, b: real): (m: real)
    ensures a <= m && b <= m && (m == a || m == b)
  {
    if a < b then b else a
  }

  /** The width of the view box before padding: the larger of the container's and the chart's. */
  function FittedWidth(content: BoundingBox, client: ClientSize): (width: real)
    ensures width >= client.width && width >= content.width
    ensures width == client.width || width == content.width
  {
    Max(client.width, content.width)
  }

  /** The height of the view box before padding: the largest of the container's, the chart's and `MIN_HEIGHT`. */
  function FittedHeight(content: BoundingBox, client: ClientSize): (height: real)
    ensures height >= client.height && height >= content.height && height >= MIN_HEIGHT
    ensures height == client.height || height == content.height || height == MIN_HEIGHT
  {
    Max(Max(client.height, content.height), MIN_HEIGHT)
  }

  /** The offset that centres the chart along one axis of the fitted view box. */
  function CentringOffset(fitted: real, content: real): (offset: real)
    ensures 2.0 * offset + content == fitted
    ensures fitted >= content ==> offset >= 0.0
    ensures offset == 0.0 <==> fitted == content
  {
    (fitted - content) / 2.0
  }

  /** `updateViewBox`: the view box for a chart with bounding box `content` inside a container of size `client`. */
  function UpdateViewBox(content: BoundingBox, client: ClientSize): (box: ViewBox)
    ensures box.width as real >= client.width + 2.0 * MIN_PADDING
    ensures box.width as real >= content.width + 2.0 * MIN_PADDING
    ensures box.height as real >= client.height + 2.0 * MIN_PADDING
    ensures box.height as real >= content.height + 2.0 * MIN_PADDING
    ensures box.height as real >= MIN_HEIGHT + 2.0 * MIN_PADDING
    ensures box.width as real < FittedWidth(content, client) + 2.0 * MIN_PADDING + 1.0
    ensures box.height as real < FittedHeight(content, client) + 2.0 * MIN_PADDING + 1.0
  {
    var viewBoxWidth := FittedWidth(content, client);
    var viewBoxHeight := FittedHeight(content, client);
    var offsetX := CentringOffset(viewBoxWidth, content.width);
    var offsetY := CentringOffset(viewBoxHeight, content.height);
    var viewBoxLeft := Ceil(content.x - offsetX - MIN_PADDING);
    var viewBoxTop := Ceil(content.y - offsetY - MIN_PADDING);
    ViewBox(viewBoxLeft, viewBoxTop,
            Ceil(viewBoxWidth + MIN_PADDING * 2.0), Ceil(viewBoxHeight + MIN_PADDING * 2.0))
  }

  /**
   * The centring offsets are half the slack on each axis: never negative, and zero
   * exactly when the chart is at least as large as the container on that axis
   * (on the vertical axis, as large as the container and `MIN_HEIGHT`).
   */
  lemma OffsetsAreHalfTheSlack(content: BoundingBox, client: ClientSize)
    ensures var offsetX := CentringOffset(FittedWidth(content, client), content.width);
            var offsetY := CentringOffset(FittedHeight(content, client), content.height);
            && offsetX >= 0.0 && offsetY >= 0.0
            && (offsetX == 0.0 <==> content.width >= client.width)
            && (offsetY == 0.0 <==> content.height >= client.height && content.height >= MIN_HEIGHT)
            && (content.width < client.width ==> offsetX == (client.width - content.width) / 2.0)
  {
  }

  /**
   * The view box holds the whole chart with room to spare: at least `MIN_PADDING`
   * on the right and bottom, and more than `MIN_PADDING - 1` (rounding up eats
   * less than one unit) on the left and top.
   */
  lemma ViewBoxContainsContent(content: BoundingBox, client: ClientSize)
    ensures var box := UpdateViewBox(content, client);
            && box.left as real + MIN_PADDING - 1.0 < content.x
            && box.top as real + MIN_PADDING - 1.0 < content.y
            && content.x + content.width + MIN_PADDING <= (box.left + box.width) as real
            && content.y + content.height + MIN_PADDING <= (box.top + box.height) as real
  {
    var box := UpdateViewBox(content, client);
    var offsetX := CentringOffset(FittedWidth(content, client), content.width);
    var offsetY := CentringOffset(FittedHeight(content, client), content.height);
    assert box.left as real >= content.x - offsetX - MIN_PADDING;
    assert box.width as real >= FittedWidth(content, client) + 2.0 * MIN_PADDING;
    assert box.top as real >= content.y - offsetY - MIN_PADDING;
    assert box.height as real >= FittedHeight(content, client) + 2.0 * MIN_PADDING;
  }

  /**
   * The chart is centred: the middle of the view box lies on the middle of the
   * chart, moved right or down by less than one and a half units by the rounding.
   */
  lemma ViewBoxCentresContent(content: BoundingBox, client: ClientSize)
    ensures var box := UpdateViewBox(content, client);
            && 0.0 <= (box.left as real + box.width as real / 2.0) - (content.x + content.width / 2.0) < 1.5
            && 0.0 <= (box.top as real + box.height as real / 2.0) - (content.y + content.height / 2.0) < 1.5
  {
    var box := UpdateViewBox(content, client);
    var offsetX := CentringOffset(FittedWidth(content, client), content.width);
    var offsetY := CentringOffset(FittedHeight(content, client), content.height);
    assert content.x - offsetX - MIN_PADDING <= box.left as real < content.x - offsetX - MIN_PADDING + 1.0;
    assert content.y - offsetY - MIN_PADDING <= box.top as real < content.y - offsetY - MIN_PADDING + 1.0;
  }

  /** A larger chart or a larger container never gives a smaller view box. */
  lemma ViewBoxMonotonic(content: BoundingBox, client: ClientSize, larger: BoundingBox, largerClient: ClientSize)
    requires larger.width >= content.width && larger.height >= content.height
    requires largerClient.width >= client.width && largerClient.height >= client.height
    ensures UpdateViewBox(larger, largerClient).width >= UpdateViewBox(content, client).width
    ensures UpdateViewBox(larger, largerClient).height >= UpdateViewBox(content, client).height
  {
    CeilMonotonic(FittedWidth(content, client) + MIN_PADDING * 2.0, FittedWidth(larger, largerClient) + MIN_PADDING * 2.0);
    CeilMonotonic(FittedHeight(content, client) + MIN_PADDING * 2.0, FittedHeight(larger, largerClient) + MIN_PADDING * 2.0);
  }

  /** Moving the chart by whole units moves the view box by the same amounts and keeps its size. */
  lemma ViewBoxFollowsIntegerShift(content: BoundingBox, client: ClientSize, dx: int, dy: int)
    ensures var box := UpdateViewBox(content, client);
            var moved := UpdateViewBox(BoundingBox(content.x + dx as real, content.y + dy as real,
                                                   content.width, content.height), client);
            moved == ViewBox(box.left + dx, box.top + dy, box.width, box.height)
  {
    var offsetX := CentringOffset(FittedWidth(content, client), content.width);
    var offsetY := CentringOffset(FittedHeight(content, client), content.height);
    CeilShift(content.x - offsetX - MIN_PADDING, dx);
    CeilShift(content.y - offsetY - MIN_PADDING, dy);
    assert content.x + dx as real - offsetX - MIN_PADDING == content.x - offsetX - MIN_PADDING + dx as real;
    assert content.y + dy as real - offsetY - MIN_PADDING == content.y - offsetY - MIN_PADDING + dy as real;
  }
}
