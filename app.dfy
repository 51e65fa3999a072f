/**
 * The certificate editor's state and its event handlers. Each React state
 * variable is a field; each handler is a method that updates the fields it
 * sets and no others, as one sequential step. The viewport fields follow
 * `Viewport.Step`; the preview is `Preview.Render` of the current data.
 */
module App {
  import opened Wrappers
  import opened Types
  import opened Viewport
  import Preview
  import opened Export

  /** The sample record the form starts with. */
  const InitialData := CertificateData("张三", "2025", "9", "少林长拳基础", "李四", "2025-12-23", None)

  class CertificateApp {
    var isGeneratingPdf: bool
    var template: TemplateType
    var transform: Transform
    var isDragging: bool
    var dragStart: Point
    var data: CertificateData
    /** The file names handed to the browser's save, oldest first. */
    var saved: seq<string>

    constructor ()
      ensures View() == InitialView
      ensures data == InitialData && template == Classic
      ensures !isGeneratingPdf && saved == []
    {
      isGeneratingPdf := false;
      template := Classic;
      transform := Transform(0.0, 0.0, InitialScale);
      isDragging := false;
      dragStart := Point(0.0, 0.0);
      data := InitialData;
      saved := [];
    }

    function View(): ViewState
      reads this
    {
      ViewState(transform, isDragging, dragStart)
    }

    /** The certificate as the preview shows it (always at scale 1; the viewport scales the wrapper). */
    function CurrentPreview(): (r: Preview.Document)
      reads this
      ensures r.width == Preview.BaseWidth && r.height == Preview.BaseHeight
      ensures Preview.SlotsOf(r) == Preview.ContentSlots(data, template)
    {
      Preview.VariantOfTag(template);
      Preview.RenderIsStacked(data, TagOf(template));
      Preview.Render(data, TagOf(template))
    }

    /** The easing of the wrapper's transform. */
    function CurrentTransition(): (r: string)
      reads this
      ensures r == "none" <==> isDragging
    {
      Transition(isDragging)
    }

    method HandleFitToScreen(container: Option<Size>)
      modifies this`transform
      ensures View() == Step(old(View()), FitToScreen(container))
    {
      if container.Some? {
        transform := Fit(container.value);
      }
    }

    method HandleWheel(ctrlKey: bool, metaKey: bool, deltaX: real, deltaY: real)
      modifies this`transform
      ensures View() == Step(old(View()), Wheel(ctrlKey, metaKey, deltaX, deltaY))
    {
      if ctrlKey || metaKey {
        var delta := -deltaY * ZoomSensitivity;
        var newScale := ClampScale(transform.scale + delta);
        transform := transform.(scale := newScale);
      } else {
        transform := transform.(x := transform.x - deltaX, y := transform.y - deltaY);
      }
    }

    method HandleMouseDown(button: int, client: Point)
      modifies this`isDragging, this`dragStart
      ensures View() == Step(old(View()), MouseDown(button, client))
    {
      if button != 0 {
        return;
      }
      isDragging := true;
      dragStart := Point(client.x - transform.x, client.y - transform.y);
    }

    method HandleMouseMove(client: Point)
      modifies this`transform
      ensures View() == Step(old(View()), MouseMove(client))
    {
      if !isDragging {
        return;
      }
      transform := transform.(x := client.x - dragStart.x, y := client.y - dragStart.y);
    }

    /** Bound to both mouse-up and mouse-leave. */
    method HandleMouseUp()
      modifies this`isDragging
      ensures View() == Step(old(View()), MouseUp) == Step(old(View()), MouseLeave)
    {
      isDragging := false;
    }

    method AdjustZoom(delta: real)
      modifies this`transform
      ensures View() == Step(old(View()), ZoomButton(delta))
    {
      transform := transform.(scale := ClampScale(transform.scale + delta));
    }

    method HandleChange(field: Field, value: string)
      modifies this`data
      ensures data == WithField(old(data), field, value)
    {
      data := WithField(data, field, value);
    }

    method SetTemplate(t: TemplateType)
      modifies this`template
      ensures template == t
    {
      template := t;
    }

    /**
     * The capture-encode-compose-save step, which runs only while the busy
     * flag is set; `outcome` is what the libraries came to.
     */
    method CaptureAndSave(outcome: PipelineResult)
      requires isGeneratingPdf
      modifies this`saved
      ensures saved == old(saved) + Saves(outcome, data.studentName)
    {
      if outcome.Rendered? {
        saved := saved + [FileName(data.studentName)];
      }
    }

    /**
     * `handleDownloadPdf`: without a certificate element nothing happens;
     * otherwise the busy flag is raised around the pipeline and cleared after
     * it whether it succeeded or failed, and only a success saves a file.
     */
    method HandleDownloadPdf(hasElement: bool, outcome: PipelineResult)
      modifies this`isGeneratingPdf, this`saved
      ensures !hasElement ==> isGeneratingPdf == old(isGeneratingPdf) && saved == old(saved)
      ensures hasElement ==> !isGeneratingPdf
      ensures hasElement ==> saved == old(saved) + Saves(outcome, data.studentName)
    {
      if !hasElement {
        return;
      }
      isGeneratingPdf := true;
      CaptureAndSave(outcome);
      isGeneratingPdf := false;
    }
  }
}
