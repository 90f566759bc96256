/** The tip catalogue that ships with the site (`models/data/tips.ts`). */
module TipsData {
  import opened Wrappers
  import opened TipModel
  import opened Text

  /** The WCAG criteria each record cites. */
  const Criteria1: seq<string> := ["2.1.1 Keyboard", "4.1.2 Name, Role, Value"]
  const Criteria2: seq<string> := ["1.1.1 Non-text Content"]
  const Criteria3: seq<string> := ["1.3.1 Info and Relationships", "3.3.2 Labels or Instructions"]

  const Tip1: Tip := Tip(
    "1",
    "Use botões semânticos para interações",
    HTML,
    Beginner,
    "Botões devem ser criados com o elemento <button> em vez de <div> para garantir acessibilidade por teclado e leitores de tela.",
    "<div class=\"button\" onclick=\"submitForm()\">\n  Enviar formulário\n</div>",
    "<button type=\"button\" onclick=\"submitForm()\">\n  Enviar formulário\n</button>",
    "O elemento <button> já possui funcionalidades nativas de acessibilidade, como foco por teclado, ativação por tecla Enter ou espaço, e é anunciado corretamente por leitores de tela como um botão interativo. Usar <div> exige adicionar manualmente todos esses comportamentos com ARIA, tabindex e event listeners.",
    Some(Criteria1),
    ["botões", "semântica", "html", "formulários"],
    Some([Resource("Botões acessíveis", "https://developer.mozilla.org/pt-BR/docs/Web/Accessibility/ARIA/Roles/button_role", Documentation)]),
    "2025-06-01",
    "2025-06-01")

  const Tip2: Tip := Tip(
    "2",
    "Forneça textos alternativos para imagens",
    Images,
    Beginner,
    "Todas as imagens informativas devem ter um texto alternativo que descreva seu conteúdo ou propósito.",
    "<img src=\"grafico-vendas.png\">",
    "<img \n  src=\"grafico-vendas.png\" \n  alt=\"Gráfico mostrando aumento de 30% nas vendas no último trimestre\"\n>",
    "O atributo alt fornece uma alternativa textual para imagens, permitindo que usuários de leitores de tela compreendam o conteúdo visual. Para imagens decorativas, use alt=\"\" para que leitores de tela as ignorem.",
    Some(Criteria2),
    ["imagens", "alt", "texto alternativo"],
    Some([Resource("Textos alternativos", "https://www.w3.org/WAI/tutorials/images/decision-tree/", Article)]),
    "2025-06-02",
    "2025-06-02")

  const Tip3: Tip := Tip(
    "3",
    "Use rótulos visíveis para campos de formulário",
    Forms,
    Beginner,
    "Campos de formulário devem ter rótulos visíveis e associados corretamente para todos os usuários.",
    "<input type=\"text\" placeholder=\"Nome completo\">",
    "<label for=\"nome\">Nome completo</label>\n<input type=\"text\" id=\"nome\">",
    "Rótulos (labels) associados corretamente aos campos de formulário beneficiam todos os usuários, especialmente aqueles que usam tecnologias assistivas. Placeholders não substituem labels, pois desaparecem quando o usuário começa a digitar.",
    Some(Criteria3),
    ["formulários", "labels", "inputs"],
    Some([Resource("Formulários acessíveis", "https://www.w3.org/WAI/tutorials/forms/", Documentation)]),
    "2025-06-03",
    "2025-06-03")

  const Tips: seq<Tip> := [Tip1, Tip2, Tip3]

  /** No two records share an id, as the "unique identifier" field comment demands. */
  lemma IdsDistinct()
    ensures forall i, j :: 0 <= i < j < |Tips| ==> Tips[i].id != Tips[j].id
  {
  }

  /** `c` is a criterion numbered up to position `p`: digits and dots, then a space at `p`. */
  predicate NumberedAt(c: string, p: int) {
    0 < p < |c| && c[p] == ' ' &&
    forall i :: 0 <= i < p ==> ('0' <= c[i] <= '9' || c[i] == '.')
  }

  /** A criterion string `"<number> <name>"`: a dotted number, one space, then a name. */
  ghost predicate WellFormedCriterion(c: string) {
    exists p :: NumberedAt(c, p)
  }

  /** The first space-separated word of a numbered criterion is exactly its number. */
  lemma NumberedFirstToken(c: string, p: int)
    requires NumberedAt(c, p)
    ensures FirstToken(c) == c[..p]
    ensures |FirstToken(c)| > 0 && forall i :: 0 <= i < |FirstToken(c)| ==> ('0' <= FirstToken(c)[i] <= '9' || FirstToken(c)[i] == '.')
  {
    FirstTokenAt(c, p);
  }

  /** A criterion whose number has five characters (`d.d.d`) followed by a space. */
  lemma CriterionWellFormed(c: string)
    requires |c| > 5 && c[5] == ' '
    requires '0' <= c[0] <= '9' && c[1] == '.' && '0' <= c[2] <= '9' && c[3] == '.' && '0' <= c[4] <= '9'
    ensures NumberedAt(c, 5) && WellFormedCriterion(c)
  {
    forall i | 0 <= i < 5 ensures '0' <= c[i] <= '9' || c[i] == '.' {
      assert i == 0 || i == 1 || i == 2 || i == 3 || i == 4;
    }
  }

  /** The catalogue's records cite their criteria lists. */
  lemma CitedCriteria()
    ensures Tips[0].wcagCriteria == Some(Criteria1)
    ensures Tips[1].wcagCriteria == Some(Criteria2)
    ensures Tips[2].wcagCriteria == Some(Criteria3)
  {
  }

  /** Each criteria list holds only `"<number> <name>"` strings. */
  lemma CriteriaListsWellFormed()
    ensures |Criteria1| == 2 && WellFormedCriterion(Criteria1[0]) && WellFormedCriterion(Criteria1[1])
    ensures |Criteria2| == 1 && WellFormedCriterion(Criteria2[0])
    ensures |Criteria3| == 2 && WellFormedCriterion(Criteria3[0]) && WellFormedCriterion(Criteria3[1])
  {
    CriterionWellFormed(Criteria1[0]);
    CriterionWellFormed(Criteria1[1]);
    CriterionWellFormed(Criteria2[0]);
    CriterionWellFormed(Criteria3[0]);
    CriterionWellFormed(Criteria3[1]);
  }

  /** Every WCAG criterion in the catalogue has the `"<number> <name>"` form. */
  lemma CriteriaWellFormed()
    ensures forall i, k ::
              (0 <= i < |Tips| && Tips[i].wcagCriteria.Some? && 0 <= k < |Tips[i].wcagCriteria.value|) ==>
              WellFormedCriterion(Tips[i].wcagCriteria.value[k])
  {
    CitedCriteria();
    CriteriaListsWellFormed();
    forall i, k | 0 <= i < |Tips| && Tips[i].wcagCriteria.Some? && 0 <= k < |Tips[i].wcagCriteria.value|
      ensures WellFormedCriterion(Tips[i].wcagCriteria.value[k])
    {
      assert k == 0 || k == 1;
    }
  }
}
